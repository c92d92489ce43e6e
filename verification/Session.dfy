/** The host's side of one connection (src/host.rs, `handle_connection`): which thread reads
    the next line and what it does with it. */
module Sessions {
  import opened Bytes

  datatype Kind = Runnable | EmptyExec | Malformed

  /** A line from the client. The tag numbers the client's pings and requests; it is not on the
      wire, and only serves to say which message an answer answers. */
  datatype Line = Blank | Ping(tag: nat) | Abort | AttachTo(ansi: bool) | Request(tag: nat, kind: Kind)

  /** What one `read_line` of the watcher comes to: a line, a read that timed out, or end of file
      and any other error. */
  datatype Heard = Got(line: Line) | NoLine | Disconnected

  datatype Reply = Pong(tag: nat) | Response(tag: nat)

  /** Watching: the abort watcher has the reader. HandedBack: the worker has it again and
      writes the response next. Journalling: the response is out, `submit` is not through. */
  datatype Phase =
    | Opening
    | AtTop(pinged: bool)
    | Watching(tag: nat)
    | HandedBack(tag: nat)
    | AnsweringFailure(tag: nat)
    | Journalling(tag: nat)
    | Attached
    | Gone

  /** What came of a line: the opening ping, a ping answered by the worker loop, a request line
      processed (a malformed or empty one included), a line the watcher read. */
  datatype Event = Opened | PingAnswered | Processed(tag: nat) | Overheard(line: Line)

  datatype Session = Session(phase: Phase, heard: seq<Event>)

  const NEW_SESSION := Session(Opening, [])

  datatype Reaction = Ignore | AnswerPing | SwitchToAttachment | Reject | Refuse | Launch

  /** The worker loop's reading of a line. */
  function React(pinged: bool, line: Line): Reaction {
    match line
    case Blank => Ignore
    case Ping(_) => AnswerPing
    case Abort => Ignore
    case AttachTo(_) => SwitchToAttachment
    case Request(_, kind) => if !pinged then Reject else if kind == Runnable then Launch else Refuse
  }

  /** `written` says whether a write to the socket succeeded, `spawned` whether the child started. */
  datatype HostAction =
    | HearFirst(line: Line, written: bool)
    | HearLine(line: Line, written: bool, spawned: bool)
    | Overhear(line: Line)
    | CommandEnds
    | WriteResponse(written: bool)
    | AnswerFailure(written: bool)
    | Journal
    | Vanish

  predicate HostEnabled(s: Session, a: HostAction) {
    match a
    case HearFirst(_, _) => s.phase == Opening
    case HearLine(_, _, _) => s.phase.AtTop?
    case Overhear(_) => s.phase.Watching?
    case CommandEnds => s.phase.Watching?
    case WriteResponse(_) => s.phase.HandedBack?
    case AnswerFailure(_) => s.phase.AnsweringFailure?
    case Journal => s.phase.Journalling?
    case Vanish => s.phase != Gone
  }

  function HearAtTop(s: Session, line: Line, written: bool, spawned: bool): Session
    requires s.phase.AtTop?
  {
    match React(s.phase.pinged, line)
    case Ignore => s
    case AnswerPing => if written then Session(AtTop(true), s.heard + [PingAnswered]) else s.(phase := Gone)
    case SwitchToAttachment => s.(phase := Attached)
    case Reject => s.(phase := Gone)
    case Refuse => Session(if written then AtTop(false) else Gone, s.heard + [Processed(line.tag)])
    case Launch => Session(if spawned then Watching(line.tag) else AnsweringFailure(line.tag), s.heard + [Processed(line.tag)])
  }

  function HostStep(s: Session, a: HostAction): Session
    requires HostEnabled(s, a)
  {
    match a
    case HearFirst(line, written) =>
      if line.Ping? && written then Session(AtTop(false), s.heard + [Opened]) else s.(phase := Gone)
    case HearLine(line, written, spawned) => HearAtTop(s, line, written, spawned)
    case Overhear(line) =>
      Session(if line == Abort then HandedBack(s.phase.tag) else s.phase, s.heard + [Overheard(line)])
    case CommandEnds => s.(phase := HandedBack(s.phase.tag))
    case WriteResponse(_) => s.(phase := Journalling(s.phase.tag))
    case AnswerFailure(written) => s.(phase := if written then Journalling(s.phase.tag) else Gone)
    case Journal => s.(phase := AtTop(false))
    case Vanish => s.(phase := Gone)
  }

  /** What the step writes to the client. */
  function Replies(s: Session, a: HostAction): seq<Reply>
    requires HostEnabled(s, a)
  {
    match a
    case HearFirst(line, written) => if line.Ping? && written then [Pong(line.tag)] else []
    case HearLine(line, written, _) =>
      if !written then []
      else (match React(s.phase.pinged, line)
            case AnswerPing => [Pong(line.tag)]
            case Refuse => [Response(line.tag)]
            case _ => [])
    case WriteResponse(written) => if written then [Response(s.phase.tag)] else []
    case AnswerFailure(written) => if written then [Response(s.phase.tag)] else []
    case _ => []
  }

  // ---------- authorisation ----------

  function Pings(heard: seq<Event>): nat {
    if heard == [] then 0
    else Pings(heard[..|heard| - 1]) + if heard[|heard| - 1] == PingAnswered then 1 else 0
  }

  function Requests(heard: seq<Event>): nat {
    if heard == [] then 0
    else Requests(heard[..|heard| - 1]) + if heard[|heard| - 1].Processed? then 1 else 0
  }

  /** Some ping answered at i authorises what happens at j. */
  predicate PingSince(heard: seq<Event>, j: nat)
    requires j <= |heard|
  {
    exists i :: 0 <= i < j && heard[i] == PingAnswered && forall k :: i < k < j ==> !heard[k].Processed?
  }

  /** Each processed request has an answered ping since the previous one, and the pings of the
      worker loop are at least as many as the requests. */
  ghost predicate Authorised(s: Session) {
    && (forall j :: 0 <= j < |s.heard| && s.heard[j].Processed? ==> PingSince(s.heard, j))
    && (s.phase == AtTop(true) ==> PingSince(s.heard, |s.heard|))
    && Requests(s.heard) + (if s.phase == AtTop(true) then 1 else 0) <= Pings(s.heard)
  }

  lemma HeardMore(heard: seq<Event>, e: Event)
    ensures Pings(heard + [e]) == Pings(heard) + if e == PingAnswered then 1 else 0
    ensures Requests(heard + [e]) == Requests(heard) + if e.Processed? then 1 else 0
    ensures forall j :: 0 <= j <= |heard| && PingSince(heard, j) ==> PingSince(heard + [e], j)
    ensures PingSince(heard, |heard|) && !e.Processed? ==> PingSince(heard + [e], |heard| + 1)
    ensures e == PingAnswered ==> PingSince(heard + [e], |heard| + 1)
  {
    var more := heard + [e];
    assert more[..|heard|] == heard;
    forall j | 0 <= j <= |heard| && PingSince(heard, j) ensures PingSince(more, j) {
      var i :| 0 <= i < j && heard[i] == PingAnswered && forall k :: i < k < j ==> !heard[k].Processed?;
      assert more[i] == PingAnswered && forall k :: i < k < j ==> !more[k].Processed?;
    }
    if PingSince(heard, |heard|) && !e.Processed? {
      var i :| 0 <= i < |heard| && heard[i] == PingAnswered && forall k :: i < k < |heard| ==> !heard[k].Processed?;
      assert more[i] == PingAnswered && forall k :: i < k < |more| ==> !more[k].Processed?;
    }
    if e == PingAnswered {
      assert more[|heard|] == PingAnswered;
    }
  }

  lemma HeardKeepsAuthorised(s: Session, e: Event, phase: Phase)
    requires Authorised(s)
    requires e.Processed? ==> s.phase == AtTop(true) && phase != AtTop(true)
    requires phase == AtTop(true) ==> e == PingAnswered
    ensures Authorised(Session(phase, s.heard + [e]))
  {
    hide PingSince, Pings, Requests;
    HeardMore(s.heard, e);
    var more := s.heard + [e];
    forall j | 0 <= j < |more| && more[j].Processed? ensures PingSince(more, j) {
      if j < |s.heard| {
        assert s.heard[j].Processed?;
      }
    }
  }

  lemma PhaseKeepsAuthorised(s: Session, phase: Phase)
    requires Authorised(s) && phase != AtTop(true)
    ensures Authorised(s.(phase := phase))
  {
    hide PingSince, Pings, Requests;
  }

  lemma HostStepKeepsAuthorised(s: Session, a: HostAction)
    requires Authorised(s) && HostEnabled(s, a)
    ensures Authorised(HostStep(s, a))
  {
    hide Authorised;
    var d := HostStep(s, a);
    if d.heard == s.heard {
      if d.phase != s.phase {
        PhaseKeepsAuthorised(s, d.phase);
      }
    } else {
      HeardKeepsAuthorised(s, d.heard[|s.heard|], d.phase);
      assert d == Session(d.phase, s.heard + [d.heard[|s.heard|]]);
    }
  }

  /** The session after a run over any lines whatsoever; None when a step was not possible. */
  function Serve(actions: seq<HostAction>): Option<Session> {
    if actions == [] then Some(NEW_SESSION)
    else
      var before := Serve(actions[..|actions| - 1]);
      var last := actions[|actions| - 1];
      if before.None? || !HostEnabled(before.value, last) then None
      else Some(HostStep(before.value, last))
  }

  /** Authorisation over whole traces, for any client: pings read by the watcher authorise nothing. */
  lemma {:induction false} RequestsAreAuthorised(actions: seq<HostAction>)
    ensures var r := Serve(actions); r.Some? ==> Authorised(r.value)
  {
    if actions != [] {
      var before, last := actions[..|actions| - 1], actions[|actions| - 1];
      RequestsAreAuthorised(before);
      var s := Serve(before);
      if s.Some? && HostEnabled(s.value, last) {
        HostStepKeepsAuthorised(s.value, last);
      }
    }
  }

  // ---------- the worker's loop ----------

  /** One turn of the loop: the line, how the writes and the spawn go, and what the watcher
      reads while the command runs. */
  datatype Turn = Turn(line: Line, written: bool, spawned: bool, overheard: seq<Heard>)

  /** The watcher reads until an abort, the end of the connection, or the end of the command,
      which it sees once the list is through. */
  function AfterWatching(s: Session, incoming: seq<Heard>): (d: Session)
    requires s.phase.Watching?
    ensures d.phase == HandedBack(s.phase.tag)
    decreases incoming
  {
    if incoming == [] then HostStep(s, CommandEnds)
    else match incoming[0]
      case Disconnected => HostStep(s, CommandEnds)
      case NoLine => AfterWatching(s, incoming[1..])
      case Got(line) =>
        var d := HostStep(s, Overhear(line));
        if d.phase.HandedBack? then d else AfterWatching(d, incoming[1..])
  }

  function AfterTurn(s: Session, t: Turn): Session
    requires s.phase.AtTop?
  {
    var d := HostStep(s, HearLine(t.line, t.written, t.spawned));
    if d.phase.Watching? then HostStep(HostStep(AfterWatching(d, t.overheard), WriteResponse(t.written)), Journal)
    else if d.phase.AnsweringFailure? then
      var e := HostStep(d, AnswerFailure(t.written));
      if e.phase == Gone then e else HostStep(e, Journal)
    else d
  }

  function AfterTurns(s: Session, turns: seq<Turn>): Session
    decreases turns
  {
    if turns == [] || !s.phase.AtTop? then s else AfterTurns(AfterTurn(s, turns[0]), turns[1..])
  }

  // ---------- a client that keeps to the protocol ----------

  /** Some ping of these turns comes after all their requests. */
  predicate PingedBy(turns: seq<Turn>) {
    exists j :: 0 <= j < |turns| && turns[j].line.Ping? && forall k :: j < k < |turns| ==> !turns[k].line.Request?
  }

  /** All writes succeed, nothing switches to an attachment, and each request has a ping since
      the one before it. */
  predicate Polite(turns: seq<Turn>) {
    && (forall k :: 0 <= k < |turns| ==> turns[k].written && !turns[k].line.AttachTo?)
    && (forall k :: 0 <= k < |turns| && turns[k].line.Request? ==> PingedBy(turns[..k]))
  }

  /** What the watcher comes to read: up to an abort line or the loss of the client. */
  function ReadByWatcher(incoming: seq<Heard>): seq<Event> {
    if incoming == [] || incoming[0] == Disconnected then []
    else if incoming[0] == NoLine then ReadByWatcher(incoming[1..])
    else if incoming[0].line == Abort then [Overheard(Abort)]
    else [Overheard(incoming[0].line)] + ReadByWatcher(incoming[1..])
  }

  /** A ping is answered, a request is processed, and while a command runs its watcher listens. */
  function ServedBy(t: Turn): seq<Event> {
    match t.line
    case Ping(_) => [PingAnswered]
    case Request(tag, kind) => [Processed(tag)] + if kind == Runnable && t.spawned then ReadByWatcher(t.overheard) else []
    case _ => []
  }

  function Served(turns: seq<Turn>): seq<Event> {
    if turns == [] then [] else Served(turns[..|turns| - 1]) + ServedBy(turns[|turns| - 1])
  }

  lemma {:induction false} WatcherReads(s: Session, incoming: seq<Heard>)
    requires s.phase.Watching?
    ensures AfterWatching(s, incoming).heard == s.heard + ReadByWatcher(incoming)
    decreases incoming
  {
    if incoming != [] && incoming[0].Got? && incoming[0].line != Abort {
      var d := HostStep(s, Overhear(incoming[0].line));
      WatcherReads(d, incoming[1..]);
    } else if incoming != [] && incoming[0] == NoLine {
      WatcherReads(s, incoming[1..]);
    } else {
      assert s.heard + [] == s.heard;
    }
  }

  lemma {:induction false} OneMoreTurn(s: Session, turns: seq<Turn>, t: Turn)
    ensures var d := AfterTurns(s, turns);
            AfterTurns(s, turns + [t]) == if d.phase.AtTop? then AfterTurn(d, t) else d
    decreases turns
  {
    if turns == [] || !s.phase.AtTop? {
      assert turns == [] ==> turns + [t] == [t] && [t][1..] == [];
      if s.phase.AtTop? {
        assert AfterTurns(AfterTurn(s, t), []) == AfterTurn(s, t);
      }
    } else {
      assert (turns + [t])[0] == turns[0] && (turns + [t])[1..] == turns[1..] + [t];
      OneMoreTurn(AfterTurn(s, turns[0]), turns[1..], t);
    }
  }

  lemma PoliteTurn(s: Session, t: Turn)
    requires s.phase.AtTop? && t.written && !t.line.AttachTo? && (t.line.Request? ==> s.phase.pinged)
    ensures AfterTurn(s, t)
         == Session(AtTop(t.line.Ping? || (s.phase.pinged && !t.line.Request?)), s.heard + ServedBy(t))
  {
    if t.line.Request? && t.line.kind == Runnable && t.spawned {
      var d := Session(Watching(t.line.tag), s.heard + [Processed(t.line.tag)]);
      WatcherReads(d, t.overheard);
      Assoc(s.heard, [Processed(t.line.tag)], ReadByWatcher(t.overheard));
    } else {
      assert s.heard + [] == s.heard;
    }
  }

  lemma PingedByOneMore(turns: seq<Turn>, t: Turn)
    ensures PingedBy(turns + [t]) <==> t.line.Ping? || (PingedBy(turns) && !t.line.Request?)
  {
    var more := turns + [t];
    assert more[|turns|] == t;
    assert forall k :: 0 <= k < |turns| ==> more[k] == turns[k];
    if PingedBy(turns) && !t.line.Request? {
      var j :| 0 <= j < |turns| && turns[j].line.Ping? && forall k :: j < k < |turns| ==> !turns[k].line.Request?;
      assert more[j].line.Ping? && forall k :: j < k < |more| ==> !more[k].line.Request?;
    }
    if t.line.Ping? {
      assert more[|turns|].line.Ping? && |more| == |turns| + 1;
    }
  }

  /** A client that keeps to the protocol is served: after all its turns the worker is at the top
      of its loop, having answered every ping and processed every request, in order. */
  lemma {:induction false} PoliteClientIsServed(heard: seq<Event>, turns: seq<Turn>)
    requires Polite(turns)
    ensures AfterTurns(Session(AtTop(false), heard), turns) == Session(AtTop(PingedBy(turns)), heard + Served(turns))
  {
    if turns == [] {
      assert heard + [] == heard;
    } else {
      var before, t := turns[..|turns| - 1], turns[|turns| - 1];
      assert turns == before + [t];
      assert forall k :: 0 <= k < |before| ==> before[..k] == turns[..k] && before[k] == turns[k];
      hide AfterTurn, AfterTurns, PingedBy, ServedBy;
      PoliteClientIsServed(heard, before);
      OneMoreTurn(Session(AtTop(false), heard), before, t);
      PingedByOneMore(before, t);
      PoliteTurn(Session(AtTop(PingedBy(before)), heard + Served(before)), t);
      Assoc(heard, Served(before), ServedBy(t));
    }
  }

  // ---------- the threads' loops ----------

  /** The abort watcher's loop; it honours an abort line and the loss of the client alike. */
  method AbortWatcher(incoming: seq<Heard>, heard: seq<Event>) returns (aborted: bool, more: seq<Event>)
    ensures forall tag :: more == AfterWatching(Session(Watching(tag), heard), incoming).heard
    ensures aborted <==> Got(Abort) in incoming || Disconnected in incoming
    ensures |heard| <= |more| && more[..|heard|] == heard
    ensures forall k :: |heard| <= k < |more| ==> more[k].Overheard?
  {
    more := heard;
    var rest := incoming;
    while rest != []
      invariant |heard| <= |more| && more[..|heard|] == heard
      invariant forall k :: |heard| <= k < |more| ==> more[k].Overheard?
      invariant Got(Abort) in incoming || Disconnected in incoming <==> Got(Abort) in rest || Disconnected in rest
      invariant forall tag :: AfterWatching(Session(Watching(tag), heard), incoming).heard
                           == AfterWatching(Session(Watching(tag), more), rest).heard
      decreases rest
    {
      match rest[0] {
        case Disconnected => return true, more;
        case NoLine =>
        case Got(line) =>
          more := more + [Overheard(line)];
          if line == Abort {
            return true, more;
          }
      }
      rest := rest[1..];
    }
    return false, more;
  }

  /** The body of the worker's loop; `commandPinged` is its flag. */
  method ServeTurn(commandPinged: bool, heard: seq<Event>, t: Turn) returns (s: Session)
    ensures s == AfterTurn(Session(AtTop(commandPinged), heard), t)
  {
    var pinged, more := commandPinged, heard;
    match t.line {
      case Blank =>
      case Abort =>
      case Ping(_) =>
        if !t.written {
          return Session(Gone, heard);
        }
        more := more + [PingAnswered];
        pinged := true;
      case AttachTo(_) =>
        return Session(Attached, heard);
      case Request(tag, kind) =>
        if !commandPinged {
          return Session(Gone, heard);
        }
        pinged := false;
        more := more + [Processed(tag)];
        if kind == Runnable && t.spawned {
          ghost var watched := AfterWatching(Session(Watching(tag), more), t.overheard);
          var aborted;
          aborted, more := AbortWatcher(t.overheard, more);
          assert more == watched.heard;
        } else if !t.written {
          return Session(Gone, more);
        }
    }
    return Session(AtTop(pinged), more);
  }

  method HandleConnection(first: Line, written: bool, turns: seq<Turn>) returns (s: Session)
    ensures s == AfterTurns(HostStep(NEW_SESSION, HearFirst(first, written)), turns)
    ensures Authorised(s)
    ensures !first.Ping? || !written ==> s == Session(Gone, [])
    ensures first.Ping? && written && Polite(turns) ==>
              s == Session(AtTop(PingedBy(turns)), [Opened] + Served(turns))
  {
    if Polite(turns) {
      PoliteClientIsServed([Opened], turns);
    }
    HostStepKeepsAuthorised(NEW_SESSION, HearFirst(first, written));
    if !first.Ping? || !written {
      return Session(Gone, []);
    }
    s := Session(AtTop(false), [Opened]);
    assert [] + [Opened] == [Opened] && turns[0..] == turns;
    var i := 0;
    while i < |turns| && s.phase.AtTop?
      invariant 0 <= i <= |turns|
      invariant Authorised(s)
      invariant AfterTurns(s, turns[i..]) == AfterTurns(Session(AtTop(false), [Opened]), turns)
    {
      hide AfterTurn, Authorised;
      assert turns[i..][0] == turns[i] && turns[i..][1..] == turns[i + 1..];
      TurnKeepsAuthorised(s, turns[i]);
      s := ServeTurn(s.phase.pinged, s.heard, turns[i]);
      i := i + 1;
    }
  }

  lemma {:induction false} WatchingKeepsAuthorised(s: Session, incoming: seq<Heard>)
    requires s.phase.Watching? && Authorised(s)
    ensures Authorised(AfterWatching(s, incoming))
    decreases incoming
  {
    hide Authorised;
    if incoming == [] || incoming[0] == Disconnected {
      HostStepKeepsAuthorised(s, CommandEnds);
    } else if incoming[0] == NoLine {
      WatchingKeepsAuthorised(s, incoming[1..]);
    } else {
      var line := incoming[0].line;
      HostStepKeepsAuthorised(s, Overhear(line));
      if line != Abort {
        WatchingKeepsAuthorised(HostStep(s, Overhear(line)), incoming[1..]);
      }
    }
  }

  lemma TurnKeepsAuthorised(s: Session, t: Turn)
    requires s.phase.AtTop? && Authorised(s)
    ensures Authorised(AfterTurn(s, t))
  {
    hide Authorised;
    var hear := HearLine(t.line, t.written, t.spawned);
    HostStepKeepsAuthorised(s, hear);
    var d := HostStep(s, hear);
    if d.phase.Watching? {
      WatchingKeepsAuthorised(d, t.overheard);
      var e := AfterWatching(d, t.overheard);
      HostStepKeepsAuthorised(e, WriteResponse(t.written));
      HostStepKeepsAuthorised(HostStep(e, WriteResponse(t.written)), Journal);
    } else if d.phase.AnsweringFailure? {
      HostStepKeepsAuthorised(d, AnswerFailure(t.written));
      if t.written {
        HostStepKeepsAuthorised(HostStep(d, AnswerFailure(t.written)), Journal);
      }
    }
  }
}
