/** What the callers of the pool may rely on (src/mcp.rs): what a look, a drop and the reconnect
    worker do, why a connection is ever closed, and that every call can be served. */
module PoolService {
  import opened Bytes
  import opened Sessions
  import opened Wires
  import opened Pools
  import opened PoolTheorems

  // ---------- what each operation does, told from the wires ----------

  /** A dropped lease goes back to the pool, untouched, if and only if its client has its last
      answer; otherwise its connection is closed. */
  lemma DropDecides(s: System, i: nat, retry: bool)
    requires Inv(s) && Enabled(s, Drop(i, retry))
    ensures Bounded(s)
    ensures var c, t := s.calls[i].place.conn, Apply(s, Drop(i, retry));
            && t.active == s.active - 1 && t.scout == s.scout
            && t.calls == s.calls[i := s.calls[i].(place := if retry then Seeking else Over)]
            && (WireOf(s, i).client.Ready? ==> t.idle == s.idle + [c] && t.wires == s.wires)
            && (!WireOf(s, i).client.Ready? ==>
                  && t.idle == s.idle
                  && |t.wires| == |s.wires| && t.wires[c] == s.wires[c].(client := Closed)
                  && forall k :: 0 <= k < |s.wires| && k != c ==> t.wires[k] == s.wires[k])
  {
    InvGivesBounds(s);
    LeaseIsAsItSays(s, i);
    hide Inv;
  }

  /** What becomes of the connections a look at the pool throws out. */
  predicate Throws(s: System, t: System, out: seq<nat>) {
    && |t.wires| == |s.wires|
    && forall k :: 0 <= k < |s.wires| ==> t.wires[k] == if k in out then s.wires[k].(client := Closed) else s.wires[k]
  }

  /** A look leases the last idle connection that is not dead and closes the dead ones after it. */
  lemma LookLeasesTheLastLive(s: System, i: nat, dead: set<nat>, front: seq<nat>, c: nat, back: seq<nat>)
    requires Inv(s) && Enabled(s, Look(i, dead))
    requires s.idle == front + [c] + back && c !in dead && forall b :: b in back ==> b in dead
    ensures Bounded(s)
    ensures var t := Apply(s, Look(i, dead));
            && t.idle == front && t.active == s.active + 1
            && t.calls == s.calls[i := s.calls[i].(place := Holding(c, Acquired, true))]
            && Throws(s, t, back)
  {
    IdleIsDistinct(s);
    PoppedIsAPrefix(s.idle, dead);
    hide Inv, Popped;
    var (r, left) := Popped(s.idle, dead);
    assert s.idle[|front|] == c && c in s.idle;
    assert forall k :: |front| < k < |s.idle| ==> s.idle[k] in back;
    assert |left| == |front|;
    assert left == front;
    ThrownOut(s.idle, front, c, back);
    hide Members;
  }

  lemma ThrownOut(idle: seq<nat>, front: seq<nat>, c: nat, back: seq<nat>)
    requires idle == front + [c] + back && NoDuplicates(idle)
    ensures forall k :: k in Members(idle) - Members(front) - {c} <==> k in back
  {
    forall k | k in back ensures k in idle && k !in front && k != c {
      var j :| 0 <= j < |back| && back[j] == k;
      assert idle[|front| + 1 + j] == k && idle[|front|] == c;
      assert forall m :: 0 <= m < |front| ==> idle[m] == front[m];
    }
  }

  /** With nothing but dead connections, or none, the pool is emptied and the call goes to connect. */
  lemma LookFindsNone(s: System, i: nat, dead: set<nat>)
    requires Inv(s) && Enabled(s, Look(i, dead)) && forall c :: c in s.idle ==> c in dead
    ensures Bounded(s)
    ensures var t := Apply(s, Look(i, dead));
            && t.idle == [] && t.active == s.active
            && t.calls == s.calls[i := s.calls[i].(place := Dry)]
            && Throws(s, t, s.idle)
  {
    IdleIsDistinct(s);
    AllDead(s.idle, dead);
    AllThrownOut(s.idle);
    hide Inv, Popped, Members;
  }

  lemma AllDead(idle: seq<nat>, dead: set<nat>)
    requires forall c :: c in idle ==> c in dead
    ensures Popped(idle, dead) == (None, [])
  {
    PoppedIsAPrefix(idle, dead);
    hide Popped;
    assert forall k :: 0 <= k < |idle| ==> idle[k] in dead;
  }

  lemma AllThrownOut(idle: seq<nat>)
    ensures forall k :: k in Members(idle) - Members([]) - {} <==> k in idle
  {
  }

  /** The reconnect worker throws out exactly the dead, and connects next exactly if that leaves
      the pool empty and nothing is leased. */
  lemma ScoutLooks(s: System, dead: set<nat>)
    requires Inv(s) && Enabled(s, ScoutLook(dead))
    ensures Bounded(s)
    ensures var t := Apply(s, ScoutLook(dead));
            && (forall c :: c in t.idle <==> c in s.idle && c !in dead) && NoDuplicates(t.idle)
            && (t.scout == Due <==> s.active == 0 && forall c :: c in s.idle ==> c in dead)
            && (t.scout == Due || t.scout == Resting)
            && t.active == s.active && t.calls == s.calls
            && |t.wires| == |s.wires|
            && (forall k :: 0 <= k < |s.wires| ==>
                  t.wires[k] == if k in s.idle && k in dead then s.wires[k].(client := Closed) else s.wires[k])
  {
    IdleIsDistinct(s);
    AliveIsTheRest(s.idle, dead);
    hide Inv;
    NoneKept(s.idle, dead, Alive(s.idle, dead));
    CulledThrows(s, Alive(s.idle, dead), dead);
    ScoutLookIs(s, dead);
    hide Alive, Culled, Apply, Enabled;
  }

  lemma ScoutLookIs(s: System, dead: set<nat>)
    requires Bounded(s) && Enabled(s, ScoutLook(dead))
    ensures var t := Culled(s, Alive(s.idle, dead), {});
            Apply(s, ScoutLook(dead)) == t.(scout := if t.idle == [] && s.active == 0 then Due else Resting)
  {
    hide Alive, Culled, ReallyDead;
  }

  lemma NoneKept(idle: seq<nat>, dead: set<nat>, kept: seq<nat>)
    requires forall c :: c in kept <==> c in idle && c !in dead
    ensures kept == [] <==> forall c :: c in idle ==> c in dead
  {
    assert kept != [] ==> kept[0] in kept;
  }

  lemma CulledThrows(s: System, kept: seq<nat>, dead: set<nat>)
    requires Bounded(s) && forall c :: c in kept <==> c in s.idle && c !in dead
    ensures var t := Culled(s, kept, {});
            && t.idle == kept && t.active == s.active && t.calls == s.calls && t.scout == s.scout
            && |t.wires| == |s.wires|
            && forall k :: 0 <= k < |s.wires| ==>
                 t.wires[k] == if k in s.idle && k in dead then s.wires[k].(client := Closed) else s.wires[k]
  {
    hide WireOk, Framed;
    assert forall k :: k in Members(s.idle) - Members(kept) - {} <==> k in s.idle && k in dead;
  }

  /** A connection the worker has made goes to the pool; one it could not make is closed. */
  lemma ScoutFinishes(s: System, step: Step)
    requires Inv(s) && Enabled(s, step) && (step == ScoutDone || step == ScoutFailed)
    ensures Bounded(s)
    ensures var c, t := s.scout.conn, Apply(s, step);
            && t.scout == Resting && t.active == s.active && t.calls == s.calls
            && (step == ScoutDone ==> t.idle == s.idle + [c] && t.wires == s.wires)
            && (step == ScoutFailed ==> t.idle == s.idle && t.wires == s.wires[c := s.wires[c].(client := Closed)])
  {
    InvGivesBounds(s);
    hide Inv;
  }

  /** A call that could not connect, or whose ping failed, looks again and has sent nothing; one
      whose time is up is over. */
  lemma CallsLookAgain(s: System, step: Step)
    requires Inv(s) && Enabled(s, step)
    requires step.Refused? || step.DialFailed? || (step.Drop? && step.retry) || step.Expire?
    ensures Bounded(s)
    ensures var c := Apply(s, step).calls[step.i];
            c.sent == 0 && c.exec == s.calls[step.i].exec && c.place == if step.Expire? then Over else Seeking
  {
    InvGivesBounds(s);
    assert CallOk(s, step.i);
    if step.Drop? {
      DropDecides(s, step.i, true);
    }
    hide Inv;
  }

  /** A new call looks for a connection first; the reconnect worker opens a new connection of its
      own, or rests when it cannot. */
  lemma Beginnings(s: System, step: Step)
    requires Inv(s) && Enabled(s, step) && (step.Begin? || step == ScoutDial || step == ScoutRefused)
    ensures Bounded(s)
    ensures var t := Apply(s, step);
            && t.idle == s.idle && t.active == s.active
            && (step.Begin? ==> t.calls == s.calls + [Call(step.exec, Seeking, 0)] && t.wires == s.wires && t.scout == s.scout)
            && (step == ScoutDial ==>
                  t.calls == s.calls && t.wires == s.wires + [Connected(false)] && t.scout == ScoutDialing(|s.wires|))
            && (step == ScoutRefused ==> t.calls == s.calls && t.wires == s.wires && t.scout == Resting)
  {
    InvGivesBounds(s);
    hide Inv;
  }

  // ---------- why a connection is closed ----------

  predicate Holds(s: System, i: nat, c: nat) {
    i < |s.calls| && ConnOf(s.calls[i].place) == Some(c)
  }

  /** An operation on connection c fails: a write, or the wait for an answer. */
  predicate OperationFails(s: System, step: Step, c: nat) {
    match step
    case PingStart(i, outcome) => Holds(s, i, c) && outcome != Sent
    case PingGiveUp(i) => Holds(s, i, c)
    case RequestSend(i, _, outcome) => Holds(s, i, c) && outcome != Sent
    case ExecGiveUp(i) => Holds(s, i, c)
    case DialMove(k, SendPing(outcome)) => k == c && outcome != Sent
    case DialMove(k, GiveUp) => k == c
    case _ => false
  }

  /** A lease is dropped between an operation's write and its answer. */
  predicate CutShort(s: System, step: Step, c: nat) {
    step.Drop? && Holds(s, step.i, c) && (AtStage(s, step.i, Pinging) || AtStage(s, step.i, Executing))
  }

  /** A look at the pool finds c dead, and its host is gone. */
  predicate FoundDead(s: System, step: Step, c: nat) {
    && (step.Look? || step.ScoutLook?) && c in s.idle && c in step.dead
    && c < |s.wires| && s.wires[c].session.phase == Gone
  }

  predicate Reason(s: System, step: Step, c: nat) {
    OperationFails(s, step, c) || CutShort(s, step, c) || FoundDead(s, step, c)
  }

  predicate Troubled(s: System, c: nat) {
    c < |s.wires| && (s.wires[c].client == Broken || s.wires[c].client == Closed)
  }

  /** An answer that is read is the right one, so reading never breaks a connection. */
  lemma ReadingBreaksNothing(w: Wire)
    requires Framed(w) && ClientEnabled(w, ReadReply)
    ensures ClientStep(w, ReadReply).client.Ready?
  {
    hide Authorised, AnswersInOrder;
  }

  lemma LeaseStepTroubles(s: System, step: Step, c: nat)
    requires Inv(s) && Enabled(s, step) && c < |s.wires| && !Troubled(s, c) && !Reason(s, step, c)
    requires step.PingStart? || step.PingRead? || step.PingGiveUp? || step.RequestSend? || step.ResponseRead? || step.ExecGiveUp?
    ensures Bounded(s) && !Troubled(Apply(s, step), c)
  {
    InvGivesBounds(s);
    LeaseIsAsItSays(s, step.i);
    WiresAreFramed(s, ConnOf(s.calls[step.i].place).value);
    hide Inv, Framed;
    if step.PingRead? || step.ResponseRead? {
      ReadingBreaksNothing(WireOf(s, step.i));
    }
  }

  lemma WiresAreFramed(s: System, c: nat)
    requires Inv(s) && c < |s.wires|
    ensures Framed(s.wires[c])
  {
    hide Framed, OwnerOk, CallOk, IdleOk, Leases;
    assert WireOk(s.wires[c]);
  }

  lemma DialTroubles(s: System, step: Step, c: nat)
    requires Inv(s) && Enabled(s, step) && c < |s.wires| && !Troubled(s, c) && !Reason(s, step, c) && step.DialMove?
    ensures Bounded(s) && !Troubled(Apply(s, step), c)
  {
    InvGivesBounds(s);
    WiresAreFramed(s, step.conn);
    hide Inv, Framed, BeingDialed;
    if step.move == ReadReply {
      ReadingBreaksNothing(s.wires[step.conn]);
    }
  }

  lemma PoolStepTroubles(s: System, step: Step, c: nat)
    requires Inv(s) && Enabled(s, step) && c < |s.wires| && !Troubled(s, c) && !Reason(s, step, c)
    requires step.Look? || step.Drop? || step.ScoutLook? || step.DialFailed? || step.ScoutFailed? || step.ScoutDone?
    ensures Bounded(s) && !Troubled(Apply(s, step), c)
  {
    InvGivesBounds(s);
    match step
    case Look(i, dead) => LookTroubles(s, i, dead, c);
    case ScoutLook(dead) => ScoutLooks(s, dead);
    case Drop(i, retry) =>
      LeaseIsAsItSays(s, i);
      DropDecides(s, i, retry);
      hide Inv, Apply;
    case ScoutDone => ScoutFinishes(s, step);
    case ScoutFailed => ScoutFinishes(s, step);
    case DialFailed(i) => hide Inv;
    case _ =>
  }

  lemma LookTroubles(s: System, i: nat, dead: set<nat>, c: nat)
    requires Inv(s) && Enabled(s, Look(i, dead)) && c < |s.wires| && !Troubled(s, c) && !FoundDead(s, Look(i, dead), c)
    ensures Bounded(s) && !Troubled(Apply(s, Look(i, dead)), c)
  {
    IdleIsDistinct(s);
    PoppedIsAPrefix(s.idle, dead);
    assert c in dead ==> s.wires[c].session.phase == Gone;
    match Popped(s.idle, dead)
    case (None, left) =>
      LookFindsNone(s, i, dead);
    case (Some(found), front) =>
      var back := s.idle[|front| + 1..];
      assert s.idle == front + [found] + back;
      forall b | b in back ensures b in dead && b in s.idle {
        var j :| 0 <= j < |back| && back[j] == b;
        assert s.idle[|front| + 1 + j] == b;
      }
      LookLeasesTheLastLive(s, i, dead, front, found, back);
  }

  lemma OtherStepTroubles(s: System, step: Step, c: nat)
    requires Inv(s) && Enabled(s, step) && c < |s.wires| && !Troubled(s, c)
    requires step.Begin? || step.Expire? || step.Refused? || step.Dial? || step.DialDone? || step.ScoutRefused? || step.ScoutDial? || step.HostMoves?
    ensures Bounded(s) && !Troubled(Apply(s, step), c)
  {
    InvGivesBounds(s);
    hide Inv, BeingDialed;
  }

  lemma StepTroubles(s: System, step: Step, c: nat)
    requires Inv(s) && Enabled(s, step) && c < |s.wires| && !Troubled(s, c) && !Reason(s, step, c)
    ensures Bounded(s) && !Troubled(Apply(s, step), c)
  {
    hide Inv, Enabled, Apply, Troubled, Reason;
    if step.PingStart? || step.PingRead? || step.PingGiveUp? || step.RequestSend? || step.ResponseRead? || step.ExecGiveUp? {
      LeaseStepTroubles(s, step, c);
    } else if step.DialMove? {
      DialTroubles(s, step, c);
    } else if step.Look? || step.Drop? || step.ScoutLook? || step.DialFailed? || step.ScoutFailed? || step.ScoutDone? {
      PoolStepTroubles(s, step, c);
    } else {
      OtherStepTroubles(s, step, c);
    }
  }

  lemma NewWiresAreFresh(s: System, step: Step, c: nat)
    requires Bounded(s) && Enabled(s, step) && |s.wires| <= c < |Apply(s, step).wires|
    ensures !Troubled(Apply(s, step), c)
  {
    hide BeingDialed, ReallyDead;
  }

  /** At step n of the run something happened that closes connection c. */
  ghost predicate ReasonAt(steps: seq<Step>, n: nat, c: nat) {
    n < |steps| && Run(steps[..n]).Some? && Reason(Run(steps[..n]).value, steps[n], c)
  }

  /** In every run a connection is given up only if one of its operations failed or was cut
      short, or a look at the pool found it dead and its host was gone. */
  lemma {:induction false} ClosedForAReason(steps: seq<Step>, c: nat)
    ensures var r := Run(steps);
            r.Some? && c < |r.value.wires| && (r.value.wires[c].client == Closed || r.value.wires[c].client == Broken)
            ==> exists n: nat :: ReasonAt(steps, n, c)
  {
    hide Inv, Enabled, Apply, Reason;
    if steps != [] {
      var before, last := steps[..|steps| - 1], steps[|steps| - 1];
      ClosedForAReason(before, c);
      RunKeepsInv(before);
      var r := Run(before);
      if r.Some? && Enabled(r.value, last) {
        if n: nat :| ReasonAt(before, n, c) {
          assert before[..n] == steps[..n];
          assert ReasonAt(steps, n, c);
        }
        if c < |r.value.wires| && !Troubled(r.value, c) && !Reason(r.value, last, c) {
          StepTroubles(r.value, last, c);
        }
        if c >= |r.value.wires| && c < |Apply(r.value, last).wires| {
          NewWiresAreFresh(r.value, last, c);
        }
        if Reason(r.value, last, c) {
          assert ReasonAt(steps, |before|, c);
        }
      }
    }
  }
}
