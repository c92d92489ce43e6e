/** What holds in every run of the pool: any number of tool calls, connections, timeouts,
    disconnects and retries. */
module PoolTheorems {
  import opened Bytes
  import opened Sessions
  import opened Wires
  import opened Pools

  /** The system after a run; None when a step was not possible. */
  function Run(steps: seq<Step>): (r: Option<System>)
    ensures r.Some? ==> Bounded(r.value)
  {
    if steps == [] then Some(NEW_SYSTEM)
    else
      var before := Run(steps[..|steps| - 1]);
      var last := steps[|steps| - 1];
      if before.None? || !Enabled(before.value, last) then None
      else Some(Apply(before.value, last))
  }

  lemma {:induction false} RunKeepsInv(steps: seq<Step>)
    ensures var r := Run(steps); r.Some? ==> Inv(r.value)
  {
    hide Inv, Enabled, Apply;
    if steps == [] {
      NewSystemIsOk();
    } else {
      RunKeepsInv(steps[..|steps| - 1]);
      var before := Run(steps[..|steps| - 1]);
      var last := steps[|steps| - 1];
      if before.Some? && Enabled(before.value, last) {
        StepKeepsInv(before.value, last);
      }
    }
  }

  lemma NewSystemIsOk()
    ensures Inv(NEW_SYSTEM)
  {
  }

  // ---------- framing ----------

  predicate InStep(w: Wire) {
    w.toHost == [] && w.toClient == [] && OnTheWayToTop(w.session.phase)
  }

  lemma ReadyIsInStep(w: Wire)
    requires Framed(w) && !w.mayAbort && w.client.Ready?
    ensures InStep(w)
  {
    hide Authorised, AnswersInOrder;
    NoAbortNoDifference(w.toHost);
  }

  /** The framing invariant of the pool: a connection that is idle, or that its lease would
      return to the pool, has nothing under way in either direction, and the worker at the
      other end is at the top of its loop, on its way there, or gone. */
  lemma PooledConnectionsAreInStep(steps: seq<Step>, c: nat)
    ensures var r := Run(steps);
            r.Some? ==>
              && (c in r.value.idle ==> InStep(r.value.wires[c]))
              && (forall i :: 0 <= i < |r.value.calls| && r.value.calls[i].place.Holding? && r.value.calls[i].place.reusable
                    ==> r.value.calls[i].place.conn < |r.value.wires| && InStep(r.value.wires[r.value.calls[i].place.conn]))
  {
    hide Run, Framed, Leases, DialFits, InStep;
    RunKeepsInv(steps);
    var r := Run(steps);
    if r.Some? {
      var s := r.value;
      if c in s.idle {
        assert OwnerOk(s, c) && WireOk(s.wires[c]);
        ReadyIsInStep(s.wires[c]);
      }
      forall i | 0 <= i < |s.calls| && s.calls[i].place.Holding? && s.calls[i].place.reusable
        ensures s.calls[i].place.conn < |s.wires| && InStep(s.wires[s.calls[i].place.conn])
      {
        assert CallOk(s, i);
        assert OwnerOk(s, s.calls[i].place.conn) && WireOk(s.wires[s.calls[i].place.conn]);
        ReadyIsInStep(s.wires[s.calls[i].place.conn]);
      }
    }
  }

  /** On every connection, pooled, leased or discarded, each accepted answer answers the
      message it was taken for, in order. */
  lemma NoAnswerIsMistaken(steps: seq<Step>, c: nat)
    ensures var r := Run(steps);
            r.Some? && c < |r.value.wires| ==>
              var answers := r.value.wires[c].answers;
              && (forall e :: e in answers ==> Matches(e))
              && (forall j, k :: 0 <= j < k < |answers| ==> answers[j].tag < answers[k].tag)
  {
    hide Run, Shape, Authorised, Leases, OwnerOk, CallOk, IdleOk, Matches;
    RunKeepsInv(steps);
    var r := Run(steps);
    if r.Some? && c < |r.value.wires| {
      assert WireOk(r.value.wires[c]);
    }
  }

  // ---------- accounting ----------

  /** `active` is the number of live leases, so a drop never takes it below zero. */
  lemma ActiveCountsLeases(steps: seq<Step>, i: nat, retry: bool)
    ensures var r := Run(steps);
            r.Some? ==> r.value.active == Leases(r.value.calls) && (Enabled(r.value, Drop(i, retry)) ==> r.value.active > 0)
  {
    hide Run, OwnerOk, CallOk, IdleOk, WireOk;
    RunKeepsInv(steps);
    var r := Run(steps);
    if r.Some? && Enabled(r.value, Drop(i, retry)) {
      LeasesUpdate(r.value.calls, i, Call(false, Over, 0));
    }
  }

  predicate HeldBy(s: System, i: nat, c: nat) {
    i < |s.calls| && ConnOf(s.calls[i].place) == Some(c)
  }

  /** A live connection is in exactly one place: the idle list, once; one call's lease or
      connect; or the reconnect worker's connect. */
  ghost predicate HeldOnce(s: System, c: nat)
    requires c < |s.wires|
  {
    && (s.wires[c].client != Closed <==> c in s.idle || s.scout == ScoutDialing(c) || exists i :: HeldBy(s, i, c))
    && (c in s.idle ==> s.scout != ScoutDialing(c) && forall i :: !HeldBy(s, i, c))
    && (s.scout == ScoutDialing(c) ==> forall i :: !HeldBy(s, i, c))
    && (forall i, j :: HeldBy(s, i, c) && HeldBy(s, j, c) ==> i == j)
  }

  lemma InvGivesHeldOnce(s: System, c: nat)
    requires Inv(s) && c < |s.wires|
    ensures HeldOnce(s, c)
  {
    hide Framed, Leases, SentOk;
    assert OwnerOk(s, c);
    forall i | HeldBy(s, i, c) ensures s.owners[c] == OfCall(i) {
      assert CallOk(s, i);
    }
    if s.owners[c].OfCall? {
      assert HeldBy(s, s.owners[c].call, c);
    }
  }

  lemma EveryConnectionIsHeldOnce(steps: seq<Step>, c: nat)
    ensures var r := Run(steps);
            r.Some? && c < |r.value.wires| ==> HeldOnce(r.value, c) && NoDuplicates(r.value.idle)
  {
    hide Run, HeldOnce, OwnerOk, CallOk, WireOk;
    RunKeepsInv(steps);
    var r := Run(steps);
    if r.Some? && c < |r.value.wires| {
      InvGivesHeldOnce(r.value, c);
    }
  }

  // ---------- never replay ----------

  /** A call sends at most one request, and once it has, it never looks for a connection again. */
  lemma NothingIsReplayed(steps: seq<Step>, i: nat)
    ensures var r := Run(steps);
            r.Some? && i < |r.value.calls| ==>
              var call := r.value.calls[i];
              && call.sent <= 1
              && (call.sent == 1 ==> call.place == Over || (call.place.Holding? && AfterSend(call.place.stage)))
  {
    hide Run, OwnerOk, WireOk, Leases;
    RunKeepsInv(steps);
    var r := Run(steps);
    if r.Some? && i < |r.value.calls| {
      assert CallOk(r.value, i);
    }
  }

  /** A request goes out only on a connection in step whose worker has the ping on record, or
      is gone; and a retry happens only before a request. */
  lemma RequestsGoWhereTheyAreTaken(steps: seq<Step>, i: nat, kind: Kind, outcome: Outcome)
    ensures var r := Run(steps);
            r.Some? && Enabled(r.value, RequestSend(i, kind, outcome)) ==>
              && r.value.calls[i].sent == 0
              && InStep(WireOf(r.value, i))
              && (WireOf(r.value, i).session.phase == AtTop(true) || WireOf(r.value, i).session.phase == Gone)
    ensures var r := Run(steps);
            r.Some? && Enabled(r.value, Drop(i, true)) ==> r.value.calls[i].sent == 0
  {
    hide Run, Leases, OwnerOk, IdleOk, AnswersInOrder, Authorised;
    RunKeepsInv(steps);
    var r := Run(steps);
    if r.Some? && HasWire(r.value, i) {
      LeaseIsAsItSays(r.value, i);
      assert CallOk(r.value, i) && WireOk(WireOf(r.value, i));
      if WireOf(r.value, i).client.Ready? {
        ReadyIsInStep(WireOf(r.value, i));
      }
    }
  }
}
