/** Every call of the pool can be served (src/mcp.rs): from any state there is a run in which it
    gets its response and its connection is pooled again. */
module PoolRuns {
  import opened Bytes
  import opened Sessions
  import opened Wires
  import opened Pools
  import opened PoolTheorems
  import opened PoolService

  lemma Extend(all: seq<Step>, t: System, step: Step)
    requires Run(all) == Some(t) && Enabled(t, step)
    ensures Bounded(t) && Run(all + [step]) == Some(Apply(t, step))
  {
    assert (all + [step])[..|all|] == all;
  }

  // ---------- a leased call ----------

  /** Call i holds connection c, whose wire is w, at this stage. */
  predicate At(s: System, i: nat, c: nat, w: Wire, stage: Stage, sent: nat) {
    && i < |s.calls| && s.calls[i].exec && s.calls[i].sent == sent
    && s.calls[i].place.Holding? && s.calls[i].place.conn == c && s.calls[i].place.stage == stage
    && c < |s.wires| && s.wires[c] == w
  }

  /** Steps on a call's own connection leave the idle list and the other calls alone. */
  predicate Beside(s: System, t: System, i: nat) {
    && t.idle == s.idle && |t.calls| == |s.calls|
    && forall k :: 0 <= k < |s.calls| && k != i ==> t.calls[k] == s.calls[k]
  }

  lemma HostMovesAt(s: System, i: nat, c: nat, w: Wire, stage: Stage, sent: nat, a: HostAction)
    requires Bounded(s) && At(s, i, c, w, stage, sent) && HostCan(w, a)
    ensures Enabled(s, HostMoves(c, a))
    ensures At(Apply(s, HostMoves(c, a)), i, c, HostMove(w, a), stage, sent) && Beside(s, Apply(s, HostMoves(c, a)), i)
  {
    hide HostCan, HostMove;
  }

  lemma PingStartsAt(s: System, i: nat, c: nat, w: Wire)
    requires Bounded(s) && At(s, i, c, w, Acquired, 0) && ClientEnabled(w, SendPing(Sent))
    ensures Enabled(s, PingStart(i, Sent))
    ensures At(Apply(s, PingStart(i, Sent)), i, c, ClientStep(w, SendPing(Sent)), Pinging, 0)
    ensures Beside(s, Apply(s, PingStart(i, Sent)), i)
  {
    hide ClientEnabled, ClientStep;
  }

  lemma PingReadsAt(s: System, i: nat, c: nat, w: Wire)
    requires Bounded(s) && At(s, i, c, w, Pinging, 0) && ClientEnabled(w, ReadReply) && ClientStep(w, ReadReply).client.Ready?
    ensures Enabled(s, PingRead(i))
    ensures At(Apply(s, PingRead(i)), i, c, ClientStep(w, ReadReply), Pinged, 0) && Beside(s, Apply(s, PingRead(i)), i)
  {
    hide ClientEnabled, ClientStep;
  }

  lemma RequestGoesAt(s: System, i: nat, c: nat, w: Wire, kind: Kind)
    requires Bounded(s) && At(s, i, c, w, Pinged, 0) && ClientEnabled(w, SendRequest(kind, Sent))
    ensures Enabled(s, RequestSend(i, kind, Sent))
    ensures At(Apply(s, RequestSend(i, kind, Sent)), i, c, ClientStep(w, SendRequest(kind, Sent)), Executing, 1)
    ensures Beside(s, Apply(s, RequestSend(i, kind, Sent)), i)
  {
    hide ClientEnabled, ClientStep;
  }

  lemma ResponseReadsAt(s: System, i: nat, c: nat, w: Wire)
    requires Bounded(s) && At(s, i, c, w, Executing, 1) && ClientEnabled(w, ReadReply) && ClientStep(w, ReadReply).client.Ready?
    ensures Enabled(s, ResponseRead(i))
    ensures At(Apply(s, ResponseRead(i)), i, c, ClientStep(w, ReadReply), Pools.Answered, 1) && Beside(s, Apply(s, ResponseRead(i)), i)
  {
    hide ClientEnabled, ClientStep;
  }

  /** One ping, from a lease at rest. */
  lemma PingsAt(all: seq<Step>, s: System, i: nat, c: nat, w: Wire) returns (more: seq<Step>, t: System, v: Wire)
    requires Run(all) == Some(s) && At(s, i, c, w, Acquired, 0) && AtRest(w)
    ensures Run(more) == Some(t) && At(t, i, c, v, Pinged, 0) && Beside(s, t, i)
    ensures AtRest(v) && v.client == Ready(true) && v.session.phase == AtTop(true) && v.nextTag == w.nextTag + 1
    ensures v.answers == w.answers + [PongFor(w.nextTag, Pong(w.nextTag))]
  {
    hide Run, At, Beside, Enabled, Apply, Bounded;
    more, t, v := all, s, w;
    Extends(all, s);
    PingStartsAt(t, i, c, v);
    more, t, v := Take(more, t, PingStart(i, Sent), ClientStep(v, SendPing(Sent)));
    BesideTwo(s, s, t, i);
    var a := HearLine(Ping(w.nextTag), true, true);
    assert v.toHost == [Ping(w.nextTag)] && v.toHost[1..] == [];
    HostMovesAt(t, i, c, v, Pinging, 0, a);
    ghost var before := t;
    more, t, v := Take(more, t, HostMoves(c, a), HostMove(v, a));
    BesideTwo(s, before, t, i);
    assert v.toClient == [Pong(w.nextTag)] && v.toClient[1..] == [];
    PingReadsAt(t, i, c, v);
    before := t;
    more, t, v := Take(more, t, PingRead(i), ClientStep(v, ReadReply));
    BesideTwo(s, before, t, i);
  }

  lemma Extends(all: seq<Step>, s: System)
    requires Run(all) == Some(s)
    ensures Bounded(s) && forall i :: Beside(s, s, i)
  {
  }

  lemma Take(all: seq<Step>, s: System, step: Step, w: Wire) returns (more: seq<Step>, t: System, v: Wire)
    requires Run(all) == Some(s) && Enabled(s, step)
    ensures more == all + [step] && Bounded(s) && t == Apply(s, step) && v == w && Run(more) == Some(t) && Bounded(t)
  {
    Extend(all, s, step);
    more, t, v := all + [step], Apply(s, step), w;
  }

  lemma BesideTwo(s: System, t: System, u: System, i: nat)
    requires Beside(s, t, i) && Beside(t, u, i)
    ensures Beside(s, u, i)
  {
  }

  /** One request, after the ping. */
  lemma RequestsAt(all: seq<Step>, s: System, i: nat, c: nat, w: Wire) returns (more: seq<Step>, t: System, v: Wire)
    requires Run(all) == Some(s) && At(s, i, c, w, Pinged, 0) && AtRest(w) && w.client == Ready(true) && w.session.phase == AtTop(true)
    ensures Run(more) == Some(t) && At(t, i, c, v, Pools.Answered, 1) && Beside(s, t, i)
    ensures v.client.Ready? && v.answers == w.answers + [ResponseFor(w.nextTag, Response(w.nextTag))]
  {
    hide Run, At, Beside, Enabled, Apply, Bounded;
    more, t, v := all, s, w;
    Extends(all, s);
    RequestGoesAt(t, i, c, v, Runnable);
    more, t, v := Take(more, t, RequestSend(i, Runnable, Sent), ClientStep(v, SendRequest(Runnable, Sent)));
    ghost var before := t;
    var a := HearLine(Request(w.nextTag, Runnable), true, true);
    assert v.toHost == [Request(w.nextTag, Runnable)] && v.toHost[1..] == [];
    HostMovesAt(t, i, c, v, Executing, 1, a);
    more, t, v := Take(more, t, HostMoves(c, a), HostMove(v, a));
    BesideTwo(s, before, t, i);
    before := t;
    HostMovesAt(t, i, c, v, Executing, 1, CommandEnds);
    more, t, v := Take(more, t, HostMoves(c, CommandEnds), HostMove(v, CommandEnds));
    BesideTwo(s, before, t, i);
    before := t;
    HostMovesAt(t, i, c, v, Executing, 1, WriteResponse(true));
    more, t, v := Take(more, t, HostMoves(c, WriteResponse(true)), HostMove(v, WriteResponse(true)));
    BesideTwo(s, before, t, i);
    before := t;
    assert v.toClient == [Response(w.nextTag)] && v.toClient[1..] == [];
    ResponseReadsAt(t, i, c, v);
    more, t, v := Take(more, t, ResponseRead(i), ClientStep(v, ReadReply));
    BesideTwo(s, before, t, i);
  }

  /** A lease whose host is not gone comes to rest: the host finishes what it was about. */
  lemma Rests(all: seq<Step>, s: System, i: nat, c: nat, w: Wire) returns (more: seq<Step>, t: System, v: Wire)
    requires Run(all) == Some(s) && At(s, i, c, w, Acquired, 0)
    requires w.client.Ready? && w.toHost == [] && w.toClient == [] && (w.session.phase.AtTop? || w.session.phase.Journalling?)
    ensures Run(more) == Some(t) && At(t, i, c, v, Acquired, 0) && Beside(s, t, i)
    ensures AtRest(v) && v.answers == w.answers
  {
    hide Run, At, Beside, Enabled, Apply, Bounded;
    more, t, v := all, s, w;
    Extends(all, s);
    if w.session.phase.Journalling? {
      HostMovesAt(t, i, c, v, Acquired, 0, Journal);
      more, t, v := Take(more, t, HostMoves(c, Journal), HostMove(v, Journal));
      assert w.toClient + [] == w.toClient;
    }
  }

  /** The last answer on the wire was the response to the request before it. */
  predicate LastWasItsResponse(w: Wire) {
    w.answers != [] && w.answers[|w.answers| - 1].ResponseFor? && Matches(w.answers[|w.answers| - 1])
  }

  /** What a served call leaves: it sent one request, its response was the last answer on a
      connection that is now pooled, and no other call was touched. */
  predicate ServedCall(s: System, t: System, i: nat) {
    && i < |t.calls| && t.calls[i] == Call(true, Over, 1)
    && t.idle != [] && t.idle[|t.idle| - 1] < |t.wires| && LastWasItsResponse(t.wires[t.idle[|t.idle| - 1]])
    && |t.calls| == |s.calls|
    && forall k :: 0 <= k < |s.calls| && k != i ==> t.calls[k] == s.calls[k]
  }

  /** From a lease to the end of the call. */
  lemma LeaseIsServed(all: seq<Step>, s: System, i: nat, c: nat, w: Wire) returns (more: seq<Step>, t: System)
    requires Run(all) == Some(s) && At(s, i, c, w, Acquired, 0)
    requires w.client.Ready? && w.toHost == [] && w.toClient == [] && (w.session.phase.AtTop? || w.session.phase.Journalling?)
    ensures Run(more) == Some(t) && ServedCall(s, t, i)
  {
    hide Run, At, Beside;
    var v: Wire;
    more, t, v := Rests(all, s, i, c, w);
    ghost var u := t;
    more, t, v := PingsAt(more, t, i, c, v);
    BesideTwo(s, u, t, i);
    u := t;
    more, t, v := RequestsAt(more, t, i, c, v);
    BesideTwo(s, u, t, i);
    more, t := GivesBack(more, s, t, i, c, v);
  }

  lemma GivesBack(all: seq<Step>, s: System, u: System, i: nat, c: nat, w: Wire) returns (more: seq<Step>, t: System)
    requires Run(all) == Some(u) && At(u, i, c, w, Pools.Answered, 1) && Beside(s, u, i)
    requires w.client.Ready? && LastWasItsResponse(w)
    ensures Run(more) == Some(t) && ServedCall(s, t, i)
  {
    assert Enabled(u, Drop(i, false));
    RunKeepsInv(all);
    Extend(all, u, Drop(i, false));
    DropDecides(u, i, false);
    hide Run, Inv, Apply, Enabled;
    more, t := all + [Drop(i, false)], Apply(u, Drop(i, false));
  }

  // ---------- a call that looks for a connection ----------

  predicate DialsAt(s: System, i: nat, c: nat, w: Wire) {
    && i < |s.calls| && s.calls[i] == Call(true, Dialing(c), 0) && c < |s.wires| && s.wires[c] == w
  }

  lemma DialMovesAt(s: System, i: nat, c: nat, w: Wire, a: ClientAction)
    requires Bounded(s) && DialsAt(s, i, c, w) && ClientEnabled(w, a) && (a == SendPing(Sent) || a == ReadReply)
    requires a.SendPing? ==> w.client == Fresh
    ensures Enabled(s, DialMove(c, a))
    ensures DialsAt(Apply(s, DialMove(c, a)), i, c, ClientStep(w, a)) && Beside(s, Apply(s, DialMove(c, a)), i)
  {
    hide ClientEnabled, ClientStep;
    assert s.calls[i].place == Dialing(c);
  }

  lemma HostMovesDial(s: System, i: nat, c: nat, w: Wire, a: HostAction)
    requires Bounded(s) && DialsAt(s, i, c, w) && HostCan(w, a)
    ensures Enabled(s, HostMoves(c, a))
    ensures DialsAt(Apply(s, HostMoves(c, a)), i, c, HostMove(w, a)) && Beside(s, Apply(s, HostMoves(c, a)), i)
  {
    hide HostCan, HostMove;
  }

  lemma DialStarts(s: System, i: nat)
    requires Bounded(s) && i < |s.calls| && s.calls[i] == Call(true, Dry, 0)
    ensures Enabled(s, Dial(i)) && DialsAt(Apply(s, Dial(i)), i, |s.wires|, Connected(false)) && Beside(s, Apply(s, Dial(i)), i)
  {
  }

  lemma DialEnds(s: System, i: nat, c: nat, w: Wire)
    requires Bounded(s) && DialsAt(s, i, c, w) && w.client.Ready?
    ensures Enabled(s, DialDone(i)) && At(Apply(s, DialDone(i)), i, c, w, Acquired, 0) && Beside(s, Apply(s, DialDone(i)), i)
  {
  }

  /** Connecting and the opening handshake. */
  lemma Connects(all: seq<Step>, s: System, i: nat) returns (more: seq<Step>, t: System, c: nat, v: Wire)
    requires Run(all) == Some(s) && i < |s.calls| && s.calls[i] == Call(true, Dry, 0)
    ensures Run(more) == Some(t) && At(t, i, c, v, Acquired, 0) && Beside(s, t, i) && AtRest(v)
  {
    hide Run, At, DialsAt, Beside, Enabled, Apply, Bounded;
    more, t, c := all, s, |s.wires|;
    Extends(all, s);
    DialStarts(t, i);
    more, t, v := Take(more, t, Dial(i), Connected(false));
    ghost var u := t;
    DialMovesAt(t, i, c, v, SendPing(Sent));
    more, t, v := Take(more, t, DialMove(c, SendPing(Sent)), ClientStep(v, SendPing(Sent)));
    BesideTwo(s, u, t, i);
    u := t;
    assert v.toHost == [Ping(0)] && v.toHost[1..] == [];
    HostMovesDial(t, i, c, v, HearFirst(Ping(0), true));
    more, t, v := Take(more, t, HostMoves(c, HearFirst(Ping(0), true)), HostMove(v, HearFirst(Ping(0), true)));
    BesideTwo(s, u, t, i);
    u := t;
    assert v.toClient == [Pong(0)] && v.toClient[1..] == [];
    DialMovesAt(t, i, c, v, ReadReply);
    more, t, v := Take(more, t, DialMove(c, ReadReply), ClientStep(v, ReadReply));
    BesideTwo(s, u, t, i);
    u := t;
    DialEnds(t, i, c, v);
    more, t, v := Take(more, t, DialDone(i), v);
    BesideTwo(s, u, t, i);
  }

  /** The connections whose hosts are gone. */
  function GoneIn(s: System, idle: seq<nat>): set<nat>
    requires Bounded(s) && idle <= s.idle
  {
    set c | c in idle && c < |s.wires| && s.wires[c].session.phase == Gone
  }

  /** The last idle connection that is not dead, if there is one. */
  lemma {:induction false} LastLive(idle: seq<nat>, dead: set<nat>) returns (found: bool, front: seq<nat>, c: nat, back: seq<nat>)
    ensures found ==> idle == front + [c] + back && c !in dead && forall b :: b in back ==> b in dead
    ensures !found ==> forall b :: b in idle ==> b in dead
  {
    if idle == [] {
      found, front, c, back := false, [], 0, [];
    } else {
      var before, last := idle[..|idle| - 1], idle[|idle| - 1];
      assert idle == before + [last];
      if last !in dead {
        found, front, c, back := true, before, last, [];
      } else {
        found, front, c, back := LastLive(before, dead);
        back := back + [last];
      }
    }
  }

  /** From every state any call that looks for a connection can be served: there is a run on in
      which it leases or makes one, its one request is answered, and the connection is pooled. */
  lemma EveryCallCanBeServed(all: seq<Step>, i: nat) returns (more: seq<Step>)
    requires var r := Run(all); r.Some? && i < |r.value.calls| && r.value.calls[i].exec && r.value.calls[i].place == Seeking
    ensures var s, t := Run(all).value, Run(more); t.Some? && ServedCall(s, t.value, i)
  {
    hide Run, Inv, Apply, Enabled, Popped, ServedCall;
    var s := Run(all).value;
    RunKeepsInv(all);
    InvGivesBounds(s);
    NothingIsReplayed(all, i);
    var dead := GoneIn(s, s.idle);
    LookIsPossible(s, i, dead);
    Extend(all, s, Look(i, dead));
    more := all + [Look(i, dead)];
    var t := Apply(s, Look(i, dead));
    var found, front, c, back := LastLive(s.idle, dead);
    var u: System, w: Wire;
    if found {
      LookLeasesTheLastLive(s, i, dead, front, c, back);
      assert s.idle[|front|] == c;
      PooledConnectionsAreInStep(all, c);
      StillThere(s, t, front, c, back);
      w := t.wires[c];
      u := t;
    } else {
      LookFindsNone(s, i, dead);
      more, u, c, w := Connects(more, t, i);
    }
    more, t := LeaseIsServed(more, u, i, c, w);
    SameCalls(s, u, t, i);
  }

  lemma LookIsPossible(s: System, i: nat, dead: set<nat>)
    requires Bounded(s) && i < |s.calls| && s.calls[i].place == Seeking && dead == GoneIn(s, s.idle)
    ensures Enabled(s, Look(i, dead))
  {
  }

  lemma StillThere(s: System, t: System, front: seq<nat>, c: nat, back: seq<nat>)
    requires Inv(s) && s.idle == front + [c] + back && Throws(s, t, back)
    ensures c < |t.wires| && t.wires[c] == s.wires[c] && s.wires[c].client.Ready?
  {
    IdleIsDistinct(s);
    assert s.idle[|front|] == c && c in s.idle;
    ThrownOut(s.idle, front, c, back);
    assert c !in back;
    assert OwnerOk(s, c) && IdleOk(s);
    hide Framed, Leases, CallOk;
  }

  lemma SameCalls(s: System, u: System, t: System, i: nat)
    requires ServedCall(u, t, i) && |u.calls| == |s.calls|
    requires forall k :: 0 <= k < |s.calls| && k != i ==> u.calls[k] == s.calls[k]
    ensures ServedCall(s, t, i)
  {
  }
}
