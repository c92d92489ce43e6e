/** One socket: the client of src/client.rs, the host worker of src/host.rs, and a queue of
    lines in each direction. Any read may time out or fail, any write may fail before or after
    the line is out, and either side may go at any point. */
module Wires {
  import opened Bytes
  import opened Sessions

  /** Ready(true): the last thing received was the pong of a pre-command ping. Broken: some
      operation failed and nothing is known about the framing. */
  datatype Client =
    | Fresh
    | AwaitingPong(tag: nat, opening: bool)
    | Ready(pinged: bool)
    | AwaitingResponse(tag: nat, pinged: bool)
    | Broken
    | Closed

  /** An answer the client accepted, and the message it took it to answer. */
  datatype Exchange = PongFor(tag: nat, reply: Reply) | ResponseFor(tag: nat, reply: Reply)

  /** `mayAbort` tells the command-line client, whose signal handler writes abort lines at any
      point after the opening handshake, from the pooled one, which never does. */
  datatype Wire = Wire(
    mayAbort: bool,
    toHost: seq<Line>,
    toClient: seq<Reply>,
    client: Client,
    session: Session,
    nextTag: nat,
    answers: seq<Exchange>)

  function Connected(mayAbort: bool): Wire {
    Wire(mayAbort, [], [], Fresh, NEW_SESSION, 0, [])
  }

  /** How a write goes: out, out but reported as failed, or not out. */
  datatype Outcome = Sent | SentAndFailed | NotSent

  datatype ClientAction =
    | SendPing(outcome: Outcome)
    | SendRequest(kind: Kind, outcome: Outcome)
    | ReadReply
    | GiveUp
    | SendAbort
    | Close

  datatype WireStep = ByClient(client: ClientAction) | ByHost(host: HostAction)

  predicate ClientEnabled(w: Wire, a: ClientAction) {
    match a
    case SendPing(_) => w.client == Fresh || w.client.Ready?
    case SendRequest(_, _) => w.client.Ready?
    case ReadReply => w.toClient != [] && (w.client.AwaitingPong? || w.client.AwaitingResponse?)
    case GiveUp => w.client != Closed
    case SendAbort => w.mayAbort && (w.client.Ready? || w.client.AwaitingResponse? || (w.client.AwaitingPong? && !w.client.opening))
    case Close => w.client != Closed
  }

  function Out(w: Wire, line: Line, outcome: Outcome, next: Client): Wire {
    w.(toHost := if outcome == NotSent then w.toHost else w.toHost + [line],
       client := if outcome == Sent then next else Broken,
       nextTag := w.nextTag + 1)
  }

  function ClientStep(w: Wire, a: ClientAction): Wire
    requires ClientEnabled(w, a)
  {
    match a
    case SendPing(outcome) => Out(w, Ping(w.nextTag), outcome, AwaitingPong(w.nextTag, w.client == Fresh))
    case SendRequest(kind, outcome) =>
      Out(w, Request(w.nextTag, kind), outcome, AwaitingResponse(w.nextTag, w.client.pinged))
    case ReadReply =>
      var reply, rest := w.toClient[0], w.toClient[1..];
      if w.client.AwaitingPong? then
        if reply.Pong? then
          w.(toClient := rest, client := Ready(!w.client.opening), answers := w.answers + [PongFor(w.client.tag, reply)])
        else w.(toClient := rest, client := Broken)
      else
        if reply.Response? then
          w.(toClient := rest, client := Ready(false), answers := w.answers + [ResponseFor(w.client.tag, reply)])
        else w.(toClient := rest, client := Broken)
    case GiveUp => w.(client := Broken)
    case SendAbort => w.(toHost := w.toHost + [Abort])
    case Close => w.(client := Closed)
  }

  /** The host reads lines in the order they were sent. */
  predicate HostCan(w: Wire, a: HostAction) {
    && HostEnabled(w.session, a)
    && (a.HearFirst? || a.HearLine? || a.Overhear? ==> w.toHost != [] && a.line == w.toHost[0])
  }

  function HostMove(w: Wire, a: HostAction): Wire
    requires HostCan(w, a)
  {
    w.(toHost := if a.HearFirst? || a.HearLine? || a.Overhear? then w.toHost[1..] else w.toHost,
       toClient := w.toClient + Replies(w.session, a),
       session := HostStep(w.session, a))
  }

  // ---------- the framing invariant ----------

  /** The lines under way to the host that are part of an exchange. */
  function Mail(lines: seq<Line>): seq<Line> {
    if lines == [] then []
    else if lines[0] == Abort then Mail(lines[1..])
    else [lines[0]] + Mail(lines[1..])
  }

  lemma {:induction false} MailMore(lines: seq<Line>, line: Line)
    ensures Mail(lines + [line]) == if line == Abort then Mail(lines) else Mail(lines) + [line]
  {
    if lines == [] {
      assert [] + [line] == [line] && [line][1..] == [];
    } else {
      assert (lines + [line])[1..] == lines[1..] + [line];
      MailMore(lines[1..], line);
    }
  }

  lemma {:induction false} NoAbortNoDifference(lines: seq<Line>)
    requires Abort !in lines
    ensures Mail(lines) == lines
  {
    if lines != [] {
      NoAbortNoDifference(lines[1..]);
    }
  }

  predicate OnTheWayToTop(p: Phase) {
    p.AtTop? || p.Journalling? || p == Gone
  }

  predicate Busy(p: Phase, tag: nat) {
    p == Watching(tag) || p == HandedBack(tag) || p == AnsweringFailure(tag)
  }

  predicate Running(p: Phase) {
    p.Watching? || p.HandedBack? || p.AnsweringFailure?
  }

  /** What may be under way, and what the host may be doing, while the client is in this state. */
  predicate Shape(c: Client, mail: seq<Line>, replies: seq<Reply>, p: Phase) {
    match c
    case Fresh => mail == [] && replies == [] && (p == Opening || p == Gone)
    case AwaitingPong(k, true) =>
      || (mail == [Ping(k)] && replies == [] && (p == Opening || p == Gone))
      || (mail == [] && replies == [Pong(k)] && (p == AtTop(false) || p == Gone))
      || (mail == [] && replies == [] && p == Gone)
    case AwaitingPong(k, false) =>
      || (mail == [Ping(k)] && replies == [] && OnTheWayToTop(p))
      || (mail == [] && replies == [Pong(k)] && (p == AtTop(true) || p == Gone))
      || (mail == [] && replies == [] && p == Gone)
    case Ready(pinged) =>
      mail == [] && replies == [] && if pinged then p == AtTop(true) || p == Gone else OnTheWayToTop(p)
    case AwaitingResponse(k, pinged) =>
      || (|mail| == 1 && mail[0].Request? && mail[0].tag == k && replies == []
          && if pinged then p == AtTop(true) || p == Gone else OnTheWayToTop(p))
      || (mail == [] && replies == [] && (Busy(p, k) || p == Journalling(k) || p == AtTop(false) || p == Gone))
      || (mail == [] && replies == [Response(k)] && (p == Journalling(k) || p == AtTop(false) || p == Gone))
    case _ => |mail| <= 1 && (Running(p) ==> mail == [])
  }

  predicate Matches(e: Exchange) {
    match e
    case PongFor(tag, reply) => reply == Pong(tag)
    case ResponseFor(tag, reply) => reply == Response(tag)
  }

  /** The tags up to which the client has had its answers. */
  function Outstanding(w: Wire): nat {
    if w.client.AwaitingPong? || w.client.AwaitingResponse? then w.client.tag else w.nextTag
  }

  ghost predicate AnswersInOrder(w: Wire) {
    && (forall e :: e in w.answers ==> Matches(e) && e.tag < Outstanding(w))
    && (forall i, j :: 0 <= i < j < |w.answers| ==> w.answers[i].tag < w.answers[j].tag)
    && Outstanding(w) <= w.nextTag
    && (w.client.AwaitingPong? || w.client.AwaitingResponse? ==> w.client.tag < w.nextTag)
  }

  ghost predicate Framed(w: Wire) {
    && Shape(w.client, Mail(w.toHost), w.toClient, w.session.phase)
    && AnswersInOrder(w)
    && (!w.mayAbort ==> Abort !in w.toHost)
    && Authorised(w.session)
  }

  lemma ConnectedIsFramed(mayAbort: bool)
    ensures Framed(Connected(mayAbort))
  {
  }

  lemma ClientKeepsShape(w: Wire, a: ClientAction)
    requires Shape(w.client, Mail(w.toHost), w.toClient, w.session.phase) && ClientEnabled(w, a)
    ensures var d := ClientStep(w, a); Shape(d.client, Mail(d.toHost), d.toClient, d.session.phase)
  {
    match a
    case SendPing(_) => MailMore(w.toHost, Ping(w.nextTag));
    case SendRequest(kind, _) => MailMore(w.toHost, Request(w.nextTag, kind));
    case SendAbort => MailMore(w.toHost, Abort);
    case _ =>
  }

  lemma ClientKeepsAnswers(w: Wire, a: ClientAction)
    requires Shape(w.client, Mail(w.toHost), w.toClient, w.session.phase) && AnswersInOrder(w) && ClientEnabled(w, a)
    ensures AnswersInOrder(ClientStep(w, a))
  {
  }

  lemma ClientKeepsFramed(w: Wire, a: ClientAction)
    requires Framed(w) && ClientEnabled(w, a)
    ensures Framed(ClientStep(w, a))
  {
    hide Authorised, Shape, AnswersInOrder, Mail;
    ClientKeepsShape(w, a);
    ClientKeepsAnswers(w, a);
  }

  /** The host takes the first line, an abort. */
  lemma HearingAnAbort(w: Wire, a: HostAction)
    requires Shape(w.client, Mail(w.toHost), w.toClient, w.session.phase) && HostCan(w, a)
    requires (a.HearFirst? || a.HearLine? || a.Overhear?) && a.line == Abort
    ensures var d := HostMove(w, a); Shape(d.client, Mail(d.toHost), d.toClient, d.session.phase)
  {
    assert Mail(w.toHost) == Mail(w.toHost[1..]);
  }

  /** Or a ping or a request: all of the mail. */
  lemma HearingMail(w: Wire, a: HostAction)
    requires Shape(w.client, Mail(w.toHost), w.toClient, w.session.phase) && HostCan(w, a)
    requires (a.HearFirst? || a.HearLine? || a.Overhear?) && a.line != Abort
    ensures var d := HostMove(w, a); Shape(d.client, Mail(d.toHost), d.toClient, d.session.phase)
    ensures !a.Overhear?
  {
    assert Mail(w.toHost) == [a.line] + Mail(w.toHost[1..]);
    assert |Mail(w.toHost)| <= 1 && Mail(w.toHost)[0] == a.line;
  }

  lemma MovingOn(w: Wire, a: HostAction)
    requires Shape(w.client, Mail(w.toHost), w.toClient, w.session.phase) && HostCan(w, a)
    requires !(a.HearFirst? || a.HearLine? || a.Overhear?)
    ensures var d := HostMove(w, a); Shape(d.client, Mail(d.toHost), d.toClient, d.session.phase)
  {
  }

  lemma HostKeepsFramed(w: Wire, a: HostAction)
    requires Framed(w) && HostCan(w, a)
    ensures Framed(HostMove(w, a))
  {
    hide Authorised, Shape, Mail;
    if !(a.HearFirst? || a.HearLine? || a.Overhear?) {
      MovingOn(w, a);
    } else if a.line == Abort {
      HearingAnAbort(w, a);
    } else {
      HearingMail(w, a);
    }
    HostStepKeepsAuthorised(w.session, a);
  }

  /** The wire after a run; None when a step was not possible. */
  function Talk(mayAbort: bool, steps: seq<WireStep>): Option<Wire> {
    if steps == [] then Some(Connected(mayAbort))
    else
      var before := Talk(mayAbort, steps[..|steps| - 1]);
      if before.None? then None
      else match steps[|steps| - 1]
        case ByClient(a) => if ClientEnabled(before.value, a) then Some(ClientStep(before.value, a)) else None
        case ByHost(a) => if HostCan(before.value, a) then Some(HostMove(before.value, a)) else None
  }

  lemma {:induction false} TalkIsFramed(mayAbort: bool, steps: seq<WireStep>)
    ensures var r := Talk(mayAbort, steps); r.Some? ==> Framed(r.value)
  {
    hide Framed, ClientStep, HostMove;
    if steps == [] {
      ConnectedIsFramed(mayAbort);
    } else {
      TalkIsFramed(mayAbort, steps[..|steps| - 1]);
      var before := Talk(mayAbort, steps[..|steps| - 1]);
      if before.Some? {
        match steps[|steps| - 1]
        case ByClient(a) => if ClientEnabled(before.value, a) { ClientKeepsFramed(before.value, a); }
        case ByHost(a) => if HostCan(before.value, a) { HostKeepsFramed(before.value, a); }
      }
    }
  }

  // ---------- what follows ----------

  /** No pong or response is ever read as the answer to a different message, and the answers
      come in the order the messages were sent. */
  lemma AnswersMatch(mayAbort: bool, steps: seq<WireStep>)
    ensures match Talk(mayAbort, steps)
            case None => true
            case Some(w) =>
              && (forall e :: e in w.answers ==> Matches(e))
              && (forall i, j :: 0 <= i < j < |w.answers| ==> w.answers[i].tag < w.answers[j].tag)
  {
    hide Shape, Authorised, Talk, Matches;
    TalkIsFramed(mayAbort, steps);
  }

  /** Watcher hand-off: while a command runs the watcher reads nothing but abort lines; a
      ping or a request is always left for the worker. */
  lemma WatcherReadsOnlyAborts(mayAbort: bool, steps: seq<WireStep>, line: Line)
    ensures match Talk(mayAbort, steps)
            case None => true
            case Some(w) => HostCan(w, Overhear(line)) ==> line == Abort
  {
    hide Shape, Authorised, AnswersInOrder, Talk;
    TalkIsFramed(mayAbort, steps);
    var r := Talk(mayAbort, steps);
    if r.Some? && HostCan(r.value, Overhear(line)) && line != Abort {
      HearingMail(r.value, Overhear(line));
    }
  }

  /** A client that has its answer is in step with the host: nothing but aborts is under way,
      and the worker is at the top of its loop, on its way there, or gone. */
  lemma ReadyMeansInStep(mayAbort: bool, steps: seq<WireStep>)
    ensures match Talk(mayAbort, steps)
            case None => true
            case Some(w) => w.client.Ready? ==>
              && Mail(w.toHost) == [] && w.toClient == [] && OnTheWayToTop(w.session.phase)
              && (!mayAbort ==> w.toHost == [])
  {
    hide Authorised, AnswersInOrder;
    TalkIsFramed(mayAbort, steps);
    TalkKeepsKind(mayAbort, steps);
    var r := Talk(mayAbort, steps);
    if r.Some? && !mayAbort {
      NoAbortNoDifference(r.value.toHost);
    }
  }

  lemma {:induction false} TalkKeepsKind(mayAbort: bool, steps: seq<WireStep>)
    ensures var r := Talk(mayAbort, steps); r.Some? ==> r.value.mayAbort == mayAbort
  {
    if steps != [] {
      TalkKeepsKind(mayAbort, steps[..|steps| - 1]);
    }
  }

  /** A request sent right after a pre-command pong is never turned away: the host that reads
      it has the ping on record, unless it is gone. */
  lemma PingedRequestsAreTaken(mayAbort: bool, steps: seq<WireStep>, line: Line)
    ensures match Talk(mayAbort, steps)
            case None => true
            case Some(w) =>
              w.client.AwaitingResponse? && w.client.pinged && line.Request? && HostCan(w, HearLine(line, true, true)) ==>
                w.session.phase == AtTop(true) && React(true, line) != Reject
  {
    hide Authorised, AnswersInOrder, Talk;
    TalkIsFramed(mayAbort, steps);
    var r := Talk(mayAbort, steps);
    if r.Some? && r.value.toHost != [] && r.value.toHost[0].Request? {
      assert Mail(r.value.toHost) == [r.value.toHost[0]] + Mail(r.value.toHost[1..]);
    }
  }

  // ---------- exchanges succeed ----------

  function OneStep(w: Wire, step: WireStep): Option<Wire> {
    match step
    case ByClient(a) => if ClientEnabled(w, a) then Some(ClientStep(w, a)) else None
    case ByHost(a) => if HostCan(w, a) then Some(HostMove(w, a)) else None
  }

  function Onwards(w: Wire, steps: seq<WireStep>): Option<Wire>
    decreases steps
  {
    if steps == [] then Some(w)
    else match OneStep(w, steps[0])
      case None => None
      case Some(v) => Onwards(v, steps[1..])
  }

  lemma {:induction false} TalkGoesOn(mayAbort: bool, steps: seq<WireStep>, more: seq<WireStep>)
    requires Talk(mayAbort, steps).Some?
    ensures Talk(mayAbort, steps + more) == Onwards(Talk(mayAbort, steps).value, more)
    decreases more
  {
    if more == [] {
      assert steps + more == steps;
    } else {
      var next := steps + [more[0]];
      assert next[..|steps|] == steps && next[|steps|] == more[0];
      assert steps + more == next + more[1..];
      var v := OneStep(Talk(mayAbort, steps).value, more[0]);
      assert Talk(mayAbort, next) == v;
      if v.Some? {
        TalkGoesOn(mayAbort, next, more[1..]);
      } else {
        NoWayOn(mayAbort, next, more[1..]);
      }
    }
  }

  lemma {:induction false} NoWayOn(mayAbort: bool, steps: seq<WireStep>, more: seq<WireStep>)
    requires Talk(mayAbort, steps) == None
    ensures Talk(mayAbort, steps + more) == None
    decreases more
  {
    if more == [] {
      assert steps + more == steps;
    } else {
      var before := more[..|more| - 1];
      assert (steps + more)[..|steps + more| - 1] == steps + before;
      NoWayOn(mayAbort, steps, before);
    }
  }

  lemma First(w: Wire, step: WireStep, v: Wire, rest: seq<WireStep>)
    requires OneStep(w, step) == Some(v)
    ensures Onwards(w, [step] + rest) == Onwards(v, rest)
  {
    assert ([step] + rest)[1..] == rest;
  }

  lemma PongIsRead(w: Wire, t: nat, opening: bool)
    requires w.client == AwaitingPong(t, opening) && w.toClient == [Pong(t)]
    ensures Onwards(w, [ByClient(ReadReply)])
         == Some(w.(toClient := [], client := Ready(!opening), answers := w.answers + [PongFor(t, Pong(t))]))
  {
    var a := ByClient(ReadReply);
    assert [a] == [a] + [] && w.toClient[1..] == [];
    First(w, a, OneStep(w, a).value, []);
  }

  /** The opening handshake succeeds when nothing fails. */
  lemma OpeningSucceeds(mayAbort: bool)
    ensures Talk(mayAbort, [ByClient(SendPing(Sent))] + ([ByHost(HearFirst(Ping(0), true))] + [ByClient(ReadReply)]))
         == Some(Wire(mayAbort, [], [], Ready(false), Session(AtTop(false), [Opened]), 1, [PongFor(0, Pong(0))]))
  {
    var w := Connected(mayAbort);
    var a, b, c := ByClient(SendPing(Sent)), ByHost(HearFirst(Ping(0), true)), ByClient(ReadReply);
    assert Talk(mayAbort, []) == Some(w);
    TalkGoesOn(mayAbort, [], [a] + ([b] + [c]));
    assert [] + ([a] + ([b] + [c])) == [a] + ([b] + [c]);
    hide Talk;
    var w1 := w.(toHost := [Ping(0)], client := AwaitingPong(0, true), nextTag := 1);
    assert OneStep(w, a) == Some(w1) by {
      assert [] + [Ping(0)] == [Ping(0)];
    }
    First(w, a, w1, [b] + [c]);
    var w2 := w1.(toHost := [], toClient := [Pong(0)], session := Session(AtTop(false), [Opened]));
    assert OneStep(w1, b) == Some(w2) by {
      assert w1.toHost[1..] == [] && [] + [Pong(0)] == [Pong(0)] && [] + [Opened] == [Opened];
    }
    First(w1, b, w2, [c]);
    PongIsRead(w2, 0, true);
    assert [] + [PongFor(0, Pong(0))] == [PongFor(0, Pong(0))];
  }

  function PingSteps(tag: nat): seq<WireStep> {
    [ByClient(SendPing(Sent))] + ([ByHost(HearLine(Ping(tag), true, true))] + [ByClient(ReadReply)])
  }

  /** The request is sent and heard; run or turned down, it is answered; the answer is read. */
  function RequestSteps(tag: nat, kind: Kind): seq<WireStep> {
    [ByClient(SendRequest(kind, Sent))] + ([ByHost(HearLine(Request(tag, kind), true, true))]
      + ((if kind == Runnable then [ByHost(CommandEnds)] + ([ByHost(WriteResponse(true))] + [ByHost(Journal)]) else [])
         + [ByClient(ReadReply)]))
  }

  predicate AtRest(w: Wire) {
    w.client.Ready? && w.toHost == [] && w.toClient == [] && w.session.phase.AtTop?
  }

  lemma PingSucceeds(w: Wire)
    requires AtRest(w)
    ensures var t := w.nextTag; var r := Onwards(w, PingSteps(t));
            r == Some(w.(client := Ready(true), session := Session(AtTop(true), w.session.heard + [PingAnswered]), nextTag := t + 1,
                         answers := w.answers + [PongFor(t, Pong(t))]))
  {
    var t := w.nextTag;
    var a, b, c := ByClient(SendPing(Sent)), ByHost(HearLine(Ping(t), true, true)), ByClient(ReadReply);
    var w1 := w.(toHost := [Ping(t)], client := AwaitingPong(t, false), nextTag := t + 1);
    PingIsSent(w, w1);
    First(w, a, w1, [b] + [c]);
    var w2 := w1.(toHost := [], toClient := [Pong(t)], session := Session(AtTop(true), w.session.heard + [PingAnswered]));
    PingIsHeard(w1, t, w2);
    First(w1, b, w2, [c]);
    hide OneStep;
    PongIsRead(w2, t, false);
  }

  lemma PingIsSent(w: Wire, w1: Wire)
    requires AtRest(w) && w1 == w.(toHost := [Ping(w.nextTag)], client := AwaitingPong(w.nextTag, false), nextTag := w.nextTag + 1)
    ensures OneStep(w, ByClient(SendPing(Sent))) == Some(w1)
  {
    assert w.toHost + [Ping(w.nextTag)] == [Ping(w.nextTag)];
  }

  lemma PingIsHeard(w: Wire, t: nat, w2: Wire)
    requires w.toHost == [Ping(t)] && w.toClient == [] && w.session.phase.AtTop?
    requires w2 == w.(toHost := [], toClient := [Pong(t)], session := Session(AtTop(true), w.session.heard + [PingAnswered]))
    ensures OneStep(w, ByHost(HearLine(Ping(t), true, true))) == Some(w2)
  {
    assert w.toHost[1..] == [] && w.toClient + [Pong(t)] == [Pong(t)];
  }

  lemma RequestSucceeds(w: Wire, kind: Kind)
    requires AtRest(w) && w.client.pinged && w.session.phase.pinged
    ensures var t := w.nextTag; var r := Onwards(w, RequestSteps(t, kind));
            r == Some(w.(client := Ready(false), session := Session(AtTop(false), w.session.heard + [Processed(t)]), nextTag := t + 1,
                         answers := w.answers + [ResponseFor(t, Response(t))]))
  {
    var t := w.nextTag;
    var a, b, last := ByClient(SendRequest(kind, Sent)), ByHost(HearLine(Request(t, kind), true, true)), [ByClient(ReadReply)];
    var middle := if kind == Runnable then [ByHost(CommandEnds)] + ([ByHost(WriteResponse(true))] + [ByHost(Journal)]) else [];
    var w1 := OneStep(w, a).value;
    assert w1.toHost == [Request(t, kind)] && w1.toHost[1..] == [];
    First(w, a, w1, [b] + (middle + last));
    var w2 := OneStep(w1, b).value;
    First(w1, b, w2, middle + last);
    if kind == Runnable {
      CommandIsAnswered(w2, t, last);
    } else {
      assert middle + last == last;
      assert w2.toClient == [Response(t)];
      ResponseIsRead(w2, t);
    }
  }

  lemma CommandIsAnswered(w: Wire, t: nat, last: seq<WireStep>)
    requires w.session.phase == Watching(t) && w.toClient == [] && w.client == AwaitingResponse(t, true)
    requires last == [ByClient(ReadReply)]
    ensures Onwards(w, [ByHost(CommandEnds)] + ([ByHost(WriteResponse(true))] + [ByHost(Journal)]) + last)
         == Some(w.(client := Ready(false), session := w.session.(phase := AtTop(false)), answers := w.answers + [ResponseFor(t, Response(t))]))
  {
    var a, b, c := ByHost(CommandEnds), ByHost(WriteResponse(true)), ByHost(Journal);
    assert [a] + ([b] + [c]) + last == [a] + ([b] + ([c] + last));
    var w1 := OneStep(w, a).value;
    assert w.toClient + [] == w.toClient;
    First(w, a, w1, [b] + ([c] + last));
    var w2 := OneStep(w1, b).value;
    assert w2.toClient == [Response(t)];
    First(w1, b, w2, [c] + last);
    var w3 := OneStep(w2, c).value;
    assert w2.toClient + [] == w2.toClient;
    First(w2, c, w3, last);
    ResponseIsRead(w3, t);
  }

  lemma ResponseIsRead(w: Wire, t: nat)
    requires w.client == AwaitingResponse(t, true) && w.toClient == [Response(t)]
    ensures Onwards(w, [ByClient(ReadReply)])
         == Some(w.(toClient := [], client := Ready(false), answers := w.answers + [ResponseFor(t, Response(t))]))
  {
    var a := ByClient(ReadReply);
    assert [a] == [a] + [] && w.toClient[1..] == [];
    First(w, a, OneStep(w, a).value, []);
  }

  lemma {:induction false} OnwardsConcat(w: Wire, x: seq<WireStep>, y: seq<WireStep>)
    requires Onwards(w, x).Some?
    ensures Onwards(w, x + y) == Onwards(Onwards(w, x).value, y)
    decreases x
  {
    hide OneStep;
    if x == [] {
      assert x + y == y;
    } else {
      assert (x + y)[1..] == x[1..] + y;
      OnwardsConcat(OneStep(w, x[0]).value, x[1..], y);
    }
  }

  /** The handshake repeats: whenever a client has its answer and the host is at the top of its
      loop with nothing under way, there is a run in which a ping and a request of any kind are
      answered, each by its own answer, and both are where they were. */
  lemma ExchangeSucceeds(mayAbort: bool, steps: seq<WireStep>, kind: Kind) returns (more: seq<WireStep>)
    requires var r := Talk(mayAbort, steps); r.Some? && AtRest(r.value)
    ensures var w, r := Talk(mayAbort, steps).value, Talk(mayAbort, steps + more);
            var t := w.nextTag;
            && r.Some? && AtRest(r.value)
            && r.value.answers == w.answers + [PongFor(t, Pong(t))] + [ResponseFor(t + 1, Response(t + 1))]
            && r.value.session.heard == w.session.heard + [PingAnswered] + [Processed(t + 1)]
  {
    hide Talk, Onwards, PingSteps, RequestSteps;
    var w := Talk(mayAbort, steps).value;
    PingSucceeds(w);
    var v := Onwards(w, PingSteps(w.nextTag)).value;
    RequestSucceeds(v, kind);
    OnwardsConcat(w, PingSteps(w.nextTag), RequestSteps(v.nextTag, kind));
    more := PingSteps(w.nextTag) + RequestSteps(v.nextTag, kind);
    TalkGoesOn(mayAbort, steps, more);
  }

  /** An abort sent while its command runs reaches the watcher, and the request is still answered. */
  lemma AbortIsHeard(mayAbort: bool, steps: seq<WireStep>, tag: nat)
    requires var r := Talk(mayAbort, steps);
             r.Some? && mayAbort && r.value.client == AwaitingResponse(tag, true) && r.value.session.phase == Watching(tag)
             && r.value.toHost == [] && r.value.toClient == []
    ensures var w := Talk(mayAbort, steps).value;
            Talk(mayAbort, steps + ([ByClient(SendAbort)] + ([ByHost(Overhear(Abort))]
                 + ([ByHost(WriteResponse(true))] + ([ByHost(Journal)] + [ByClient(ReadReply)])))))
            == Some(w.(client := Ready(false), session := Session(AtTop(false), w.session.heard + [Overheard(Abort)]),
                       answers := w.answers + [ResponseFor(tag, Response(tag))]))
  {
    TalkKeepsKind(mayAbort, steps);
    var w := Talk(mayAbort, steps).value;
    var a, b, c, d := ByClient(SendAbort), ByHost(Overhear(Abort)), ByHost(WriteResponse(true)), ByHost(Journal);
    var last := [ByClient(ReadReply)];
    TalkGoesOn(mayAbort, steps, [a] + ([b] + ([c] + ([d] + last))));
    hide Talk;
    var w1 := OneStep(w, a).value;
    assert w1.toHost == [Abort] && w1.toHost[1..] == [];
    First(w, a, w1, [b] + ([c] + ([d] + last)));
    var w2 := OneStep(w1, b).value;
    assert w.toClient + [] == w.toClient;
    First(w1, b, w2, [c] + ([d] + last));
    AnswerGoesOut(w2, tag);
  }

  lemma AnswerGoesOut(w: Wire, tag: nat)
    requires w.session.phase == HandedBack(tag) && w.toClient == [] && w.client == AwaitingResponse(tag, true)
    ensures Onwards(w, [ByHost(WriteResponse(true))] + ([ByHost(Journal)] + [ByClient(ReadReply)]))
         == Some(w.(client := Ready(false), session := w.session.(phase := AtTop(false)), answers := w.answers + [ResponseFor(tag, Response(tag))]))
  {
    var c, d, last := ByHost(WriteResponse(true)), ByHost(Journal), [ByClient(ReadReply)];
    var v := OneStep(w, c).value;
    assert v.toClient == [Response(tag)];
    First(w, c, v, [d] + last);
    var u := OneStep(v, d).value;
    assert v.toClient + [] == v.toClient;
    First(v, d, u, last);
    ResponseIsRead(u, tag);
  }
}
