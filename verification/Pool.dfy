/** The pool of host connections behind the MCP server (src/mcp.rs): tool calls that lease
    connections, the reconnect worker, and the hosts at the other ends. */
module Pools {
  import opened Bytes
  import opened Sessions
  import opened Wires

  // ---------- the pool's own state ----------

  /** `idle.pop()` until a connection is not known dead; None when the pool runs empty. */
  function Popped(idle: seq<nat>, dead: set<nat>): (r: (Option<nat>, seq<nat>))
    ensures r.0.Some? ==> r.0.value in idle
    ensures forall c :: c in r.1 ==> c in idle
  {
    if idle == [] then (None, [])
    else
      var last, rest := idle[|idle| - 1], idle[..|idle| - 1];
      if last in dead then Popped(rest, dead) else (Some(last), rest)
  }

  /** The `retain` of the reconnect worker. */
  function Alive(idle: seq<nat>, dead: set<nat>): (r: seq<nat>)
    ensures forall c :: c in r ==> c in idle
  {
    if idle == [] then []
    else Alive(idle[..|idle| - 1], dead) + if idle[|idle| - 1] in dead then [] else [idle[|idle| - 1]]
  }

  /** The pool's state after the drop of a lease. */
  function Returned(idle: seq<nat>, active: int, connection: nat, reusable: bool): (seq<nat>, int) {
    (if reusable then idle + [connection] else idle, active - 1)
  }

  class ConnectionState {
    var idle: seq<nat>
    var active: nat

    constructor ()
      ensures idle == [] && active == 0
    {
      idle, active := [], 0;
    }

    /** The loop at the top of `acquire`; a connection found becomes an active lease. */
    method Acquire(dead: set<nat>) returns (found: Option<nat>)
      modifies this
      ensures (found, idle) == Popped(old(idle), dead)
      ensures active == if found.Some? then old(active) + 1 else old(active)
    {
      while idle != []
        invariant Popped(idle, dead) == Popped(old(idle), dead)
        invariant active == old(active)
        decreases |idle|
      {
        var connection := idle[|idle| - 1];
        idle := idle[..|idle| - 1];
        if connection !in dead {
          active := active + 1;
          return Some(connection);
        }
      }
      return None;
    }

    /** `retain` in the reconnect worker, and whether it has to connect. */
    method DropDead(dead: set<nat>) returns (due: bool)
      modifies this`idle
      ensures idle == Alive(old(idle), dead)
      ensures due <==> idle == [] && active == 0
    {
      var kept: seq<nat> := [];
      for k := 0 to |idle|
        invariant idle == old(idle)
        invariant kept == Alive(idle[..k], dead)
      {
        assert idle[..k + 1][..k] == idle[..k];
        if idle[k] !in dead {
          kept := kept + [idle[k]];
        }
      }
      assert idle[..|idle|] == idle;
      idle := kept;
      due := idle == [] && active == 0;
    }

    /** The drop of a lease. */
    method Return(connection: nat, reusable: bool)
      requires active > 0
      modifies this
      ensures (idle, active as int) == Returned(old(idle), old(active), connection, reusable)
    {
      active := active - 1;
      if reusable {
        idle := idle + [connection];
      }
    }
  }

  // ---------- the system ----------

  datatype Stage = Acquired | Pinging | Pinged | PingFailed | Executing | Answered | Failed

  /** Where a tool call is. Dialing covers the connect and the opening handshake, outside the lock. */
  datatype Place =
    | Seeking
    | Dry
    | Dialing(conn: nat)
    | Holding(conn: nat, stage: Stage, reusable: bool)
    | Over

  /** `sent` counts the request lines the call has written. */
  datatype Call = Call(exec: bool, place: Place, sent: nat)

  datatype Scout = Resting | Due | ScoutDialing(conn: nat)

  datatype Owner = Nobody | Pooled | OfCall(call: nat) | OfScout

  /** Connections are numbered in the order they were made. `owners` records who has each; no
      step looks at it. */
  datatype System = System(
    wires: seq<Wire>,
    owners: seq<Owner>,
    idle: seq<nat>,
    active: int,
    calls: seq<Call>,
    scout: Scout)

  const NEW_SYSTEM := System([], [], [], 0, [], Resting)

  datatype Step =
    | Begin(exec: bool)
    | Look(i: nat, dead: set<nat>)
    | Expire(i: nat)
    | Refused(i: nat)
    | Dial(i: nat)
    | DialMove(conn: nat, move: ClientAction)
    | DialDone(i: nat)
    | DialFailed(i: nat)
    | PingStart(i: nat, outcome: Outcome)
    | PingRead(i: nat)
    | PingGiveUp(i: nat)
    | RequestSend(i: nat, kind: Kind, outcome: Outcome)
    | ResponseRead(i: nat)
    | ExecGiveUp(i: nat)
    | Drop(i: nat, retry: bool)
    | ScoutLook(dead: set<nat>)
    | ScoutRefused
    | ScoutDial
    | ScoutDone
    | ScoutFailed
    | HostMoves(conn: nat, action: HostAction)

  /** `is_disconnected` answers yes only for connections whose host is gone. */
  predicate ReallyDead(s: System, dead: set<nat>) {
    forall c :: c in dead ==> c < |s.wires| && s.wires[c].session.phase == Gone
  }

  function ConnOf(p: Place): Option<nat> {
    match p
    case Dialing(c) => Some(c)
    case Holding(c, _, _) => Some(c)
    case _ => None
  }

  predicate HasWire(s: System, i: nat) {
    i < |s.calls| && ConnOf(s.calls[i].place).Some? && ConnOf(s.calls[i].place).value < |s.wires|
  }

  function WireOf(s: System, i: nat): Wire
    requires HasWire(s, i)
  {
    s.wires[ConnOf(s.calls[i].place).value]
  }

  predicate AtStage(s: System, i: nat, stage: Stage) {
    HasWire(s, i) && s.calls[i].place.Holding? && s.calls[i].place.stage == stage
  }

  /** Somebody is in the opening handshake of this connection. */
  predicate BeingDialed(s: System, c: nat) {
    || s.scout == ScoutDialing(c)
    || exists i :: 0 <= i < |s.calls| && s.calls[i].place == Dialing(c)
  }

  predicate Enabled(s: System, step: Step) {
    match step
    case Begin(_) => true
    case Look(i, dead) => i < |s.calls| && s.calls[i].place == Seeking && ReallyDead(s, dead)
    case Expire(i) => i < |s.calls| && (s.calls[i].place == Dry || s.calls[i].place == Seeking)
    case Refused(i) => i < |s.calls| && s.calls[i].place == Dry
    case Dial(i) => i < |s.calls| && s.calls[i].place == Dry
    case DialMove(c, a) =>
      c < |s.wires| && BeingDialed(s, c) && ClientEnabled(s.wires[c], a)
      && (a.SendPing? ==> s.wires[c].client == Fresh) && (a.SendPing? || a == ReadReply || a == GiveUp)
    case DialDone(i) => HasWire(s, i) && s.calls[i].place.Dialing? && WireOf(s, i).client.Ready?
    case DialFailed(i) => HasWire(s, i) && s.calls[i].place.Dialing? && WireOf(s, i).client == Broken
    case PingStart(i, outcome) =>
      AtStage(s, i, Acquired) && s.calls[i].exec && ClientEnabled(WireOf(s, i), SendPing(outcome))
    case PingRead(i) => AtStage(s, i, Pinging) && ClientEnabled(WireOf(s, i), ReadReply)
    case PingGiveUp(i) => AtStage(s, i, Pinging) && ClientEnabled(WireOf(s, i), GiveUp)
    case RequestSend(i, kind, outcome) =>
      AtStage(s, i, Pinged) && ClientEnabled(WireOf(s, i), SendRequest(kind, outcome))
    case ResponseRead(i) => AtStage(s, i, Executing) && ClientEnabled(WireOf(s, i), ReadReply)
    case ExecGiveUp(i) => AtStage(s, i, Executing) && ClientEnabled(WireOf(s, i), GiveUp)
    case Drop(i, retry) =>
      HasWire(s, i) && s.calls[i].place.Holding? && (retry ==> s.calls[i].place.stage == PingFailed)
    case ScoutLook(dead) => s.scout == Resting && ReallyDead(s, dead)
    case ScoutRefused => s.scout == Due
    case ScoutDial => s.scout == Due
    case ScoutDone => s.scout.ScoutDialing? && s.scout.conn < |s.wires| && s.wires[s.scout.conn].client.Ready?
    case ScoutFailed => s.scout.ScoutDialing? && s.scout.conn < |s.wires| && s.wires[s.scout.conn].client == Broken
    case HostMoves(c, a) => c < |s.wires| && HostCan(s.wires[c], a)
  }

  function Shut(w: Wire): Wire {
    w.(client := Closed)
  }

  /** Dropping connections closes them. */
  function ShutAll(wires: seq<Wire>, gone: set<nat>): (r: seq<Wire>)
    ensures |r| == |wires|
    ensures forall c :: 0 <= c < |wires| ==> r[c] == if c in gone then Shut(wires[c]) else wires[c]
  {
    seq(|wires|, c requires 0 <= c < |wires| => if c in gone then Shut(wires[c]) else wires[c])
  }

  function DisownAll(owners: seq<Owner>, gone: set<nat>): (r: seq<Owner>)
    ensures |r| == |owners|
    ensures forall c :: 0 <= c < |owners| ==> r[c] == if c in gone then Nobody else owners[c]
  {
    seq(|owners|, c requires 0 <= c < |owners| => if c in gone then Nobody else owners[c])
  }

  function Members(idle: seq<nat>): set<nat> {
    set c | c in idle
  }

  /** The idle list becomes `left`, `taken` (if any) leaves it alive, and the others are closed. */
  function Culled(s: System, left: seq<nat>, taken: set<nat>): System {
    var gone := Members(s.idle) - Members(left) - taken;
    s.(idle := left, wires := ShutAll(s.wires, gone), owners := DisownAll(s.owners, gone))
  }

  function Placed(s: System, i: nat, place: Place): System
    requires i < |s.calls|
  {
    s.(calls := s.calls[i := s.calls[i].(place := place)])
  }

  function Owned(s: System, c: nat, owner: Owner): System
    requires c < |s.owners|
  {
    s.(owners := s.owners[c := owner])
  }

  /** The lease's stage and flag after an operation that left its client so. */
  function Moved(p: Place, stage: Stage): Place
    requires p.Holding?
  {
    Holding(p.conn, stage, stage == Acquired || stage == Pinged || stage == Answered)
  }

  /** A lease operation: one step of the wire's client, then the stage it leads to. */
  function LeaseStep(s: System, i: nat, a: ClientAction, stage: Stage): System
    requires HasWire(s, i) && s.calls[i].place.Holding? && ClientEnabled(WireOf(s, i), a)
  {
    var c := s.calls[i].place.conn;
    Placed(s, i, Moved(s.calls[i].place, stage)).(wires := s.wires[c := ClientStep(s.wires[c], a)])
  }

  function AddWire(s: System, owner: Owner): System {
    s.(wires := s.wires + [Connected(false)], owners := s.owners + [owner])
  }

  /** Where a finished read leaves the lease. */
  function AfterRead(w: Wire, good: Stage, bad: Stage): Stage
    requires ClientEnabled(w, ReadReply)
  {
    if ClientStep(w, ReadReply).client.Ready? then good else bad
  }

  predicate Bounded(s: System) {
    |s.owners| == |s.wires| && forall c :: c in s.idle ==> c < |s.wires|
  }

  /** One pass of the loop at the top of `acquire`. */
  function Looked(s: System, i: nat, dead: set<nat>): (t: System)
    requires i < |s.calls| && Bounded(s)
    ensures Bounded(t)
  {
    match Popped(s.idle, dead)
    case (None, left) => Placed(Culled(s, left, {}), i, Dry)
    case (Some(c), left) =>
      Owned(Placed(Culled(s, left, {c}), i, Holding(c, Acquired, true)).(active := s.active + 1), c, OfCall(i))
  }

  /** The drop of a lease: back to the pool if it is reusable, closed otherwise. */
  function Dropped(s: System, i: nat, retry: bool): (t: System)
    requires HasWire(s, i) && s.calls[i].place.Holding? && Bounded(s)
    ensures Bounded(t)
  {
    var p := s.calls[i].place;
    var (idle, active) := Returned(s.idle, s.active, p.conn, p.reusable);
    var t := Placed(s, i, if retry then Seeking else Over).(idle := idle, active := active);
    if p.reusable then Owned(t, p.conn, Pooled)
    else Owned(t, p.conn, Nobody).(wires := s.wires[p.conn := Shut(s.wires[p.conn])])
  }

  predicate IsScoutStep(step: Step) {
    step.ScoutLook? || step.ScoutRefused? || step.ScoutDial? || step.ScoutDone? || step.ScoutFailed?
  }

  /** The steps of the reconnect worker. */
  function Scouted(s: System, step: Step): (t: System)
    requires Enabled(s, step) && IsScoutStep(step) && Bounded(s)
    ensures Bounded(t)
  {
    match step
    case ScoutLook(dead) =>
      var t := Culled(s, Alive(s.idle, dead), {});
      t.(scout := if t.idle == [] && s.active == 0 then Due else Resting)
    case ScoutRefused => s.(scout := Resting)
    case ScoutDial => AddWire(s, OfScout).(scout := ScoutDialing(|s.wires|))
    case ScoutDone => Owned(s, s.scout.conn, Pooled).(idle := s.idle + [s.scout.conn], scout := Resting)
    case ScoutFailed =>
      var c := s.scout.conn;
      Owned(s, c, Nobody).(wires := s.wires[c := Shut(s.wires[c])], scout := Resting)
  }

  function Apply(s: System, step: Step): (t: System)
    requires Enabled(s, step) && Bounded(s)
    ensures Bounded(t)
  {
    match step
    case Begin(exec) => s.(calls := s.calls + [Call(exec, Seeking, 0)])
    case Look(i, dead) =>
      Looked(s, i, dead)
    case Expire(i) => Placed(s, i, Over)
    case Refused(i) => Placed(s, i, Seeking)
    case Dial(i) => Placed(AddWire(s, OfCall(i)), i, Dialing(|s.wires|))
    case DialMove(c, a) => s.(wires := s.wires[c := ClientStep(s.wires[c], a)])
    case DialDone(i) => Placed(s, i, Holding(s.calls[i].place.conn, Acquired, true)).(active := s.active + 1)
    case DialFailed(i) =>
      var c := s.calls[i].place.conn;
      Owned(Placed(s, i, Seeking), c, Nobody).(wires := s.wires[c := Shut(s.wires[c])])
    case PingStart(i, outcome) => LeaseStep(s, i, SendPing(outcome), if outcome == Sent then Pinging else PingFailed)
    case PingRead(i) => LeaseStep(s, i, ReadReply, AfterRead(WireOf(s, i), Pinged, PingFailed))
    case PingGiveUp(i) => LeaseStep(s, i, GiveUp, PingFailed)
    case RequestSend(i, kind, outcome) =>
      var t := LeaseStep(s, i, SendRequest(kind, outcome), if outcome == Sent then Executing else Failed);
      t.(calls := t.calls[i := t.calls[i].(sent := s.calls[i].sent + 1)])
    case ResponseRead(i) => LeaseStep(s, i, ReadReply, AfterRead(WireOf(s, i), Answered, Failed))
    case ExecGiveUp(i) => LeaseStep(s, i, GiveUp, Failed)
    case Drop(i, retry) => Dropped(s, i, retry)
    case HostMoves(c, a) => s.(wires := s.wires[c := HostMove(s.wires[c], a)])
    case _ => Scouted(s, step)
  }

  // ---------- the invariant ----------

  /** What the client side of a connection can be in, given the place of its holder. */
  predicate DialFits(c: Client) {
    c == Fresh || (c.AwaitingPong? && c.opening) || c == Ready(false) || c == Broken
  }

  predicate StageFits(stage: Stage, c: Client) {
    match stage
    case Acquired => c.Ready?
    case Pinging => c.AwaitingPong? && !c.opening
    case Pinged => c == Ready(true)
    case PingFailed => c == Broken
    case Executing => c.AwaitingResponse? && c.pinged
    case Answered => c.Ready?
    case Failed => c == Broken
  }

  predicate PlaceFits(p: Place, c: Client) {
    match p
    case Dialing(_) => DialFits(c)
    case Holding(_, stage, reusable) =>
      StageFits(stage, c) && (reusable <==> stage == Acquired || stage == Pinged || stage == Answered)
    case _ => true
  }

  ghost predicate WireOk(w: Wire) {
    Framed(w) && !w.mayAbort
  }

  /** The owner on record has the connection, and its client is as the owner needs it. */
  ghost predicate OwnerOk(s: System, c: nat)
    requires c < |s.owners| == |s.wires|
  {
    match s.owners[c]
    case Nobody => s.wires[c].client == Closed
    case Pooled => s.wires[c].client.Ready? && c in s.idle
    case OfCall(i) => i < |s.calls| && ConnOf(s.calls[i].place) == Some(c) && PlaceFits(s.calls[i].place, s.wires[c].client)
    case OfScout => s.scout == ScoutDialing(c) && DialFits(s.wires[c].client)
  }

  predicate SentOk(c: Call) {
    && c.sent <= 1
    && (c.sent == 1 ==> c.place == Over || (c.place.Holding? && AfterSend(c.place.stage)))
    && (c.place.Holding? && AfterSend(c.place.stage) ==> c.sent == 1)
  }

  predicate AfterSend(stage: Stage) {
    stage == Executing || stage == Answered || stage == Failed
  }

  ghost predicate CallOk(s: System, i: nat)
    requires i < |s.calls|
  {
    && SentOk(s.calls[i])
    && (ConnOf(s.calls[i].place).Some? ==>
          var c := ConnOf(s.calls[i].place).value; c < |s.owners| && s.owners[c] == OfCall(i))
  }

  ghost predicate IdleOk(s: System) {
    && (forall c :: c in s.idle ==> c < |s.owners| && s.owners[c] == Pooled)
    && (forall j, k :: 0 <= j < k < |s.idle| ==> s.idle[j] != s.idle[k])
  }

  function Leases(calls: seq<Call>): nat {
    if calls == [] then 0 else (if calls[0].place.Holding? then 1 else 0) + Leases(calls[1..])
  }

  ghost predicate Inv(s: System) {
    && |s.owners| == |s.wires|
    && (forall c :: 0 <= c < |s.wires| ==> WireOk(s.wires[c]))
    && (forall c :: 0 <= c < |s.wires| ==> OwnerOk(s, c))
    && (forall i :: 0 <= i < |s.calls| ==> CallOk(s, i))
    && IdleOk(s)
    && (s.scout.ScoutDialing? ==> s.scout.conn < |s.owners| && s.owners[s.scout.conn] == OfScout)
    && s.active == Leases(s.calls)
  }

  // ---------- counting leases ----------

  lemma {:induction false} LeasesUpdate(calls: seq<Call>, i: nat, c: Call)
    requires i < |calls|
    ensures Leases(calls[i := c]) + (if calls[i].place.Holding? then 1 else 0)
         == Leases(calls) + (if c.place.Holding? then 1 else 0)
  {
    if i > 0 {
      assert calls[i := c][1..] == calls[1..][i - 1 := c];
      LeasesUpdate(calls[1..], i - 1, c);
    } else {
      assert calls[i := c][1..] == calls[1..];
    }
  }

  lemma {:induction false} LeasesMore(calls: seq<Call>, c: Call)
    requires !c.place.Holding?
    ensures Leases(calls + [c]) == Leases(calls)
  {
    if calls == [] {
      assert ([] + [c])[1..] == [];
    } else {
      assert (calls + [c])[1..] == calls[1..] + [c];
      LeasesMore(calls[1..], c);
    }
  }

  // ---------- culling the idle list ----------

  predicate NoDuplicates(l: seq<nat>) {
    forall j, k :: 0 <= j < k < |l| ==> l[j] != l[k]
  }

  lemma {:induction false} PoppedIsAPrefix(idle: seq<nat>, dead: set<nat>)
    ensures var (r, left) := Popped(idle, dead);
            && left <= idle
            && (r.None? ==> left == [] && forall c :: c in idle ==> c in dead)
            && (r.Some? ==> |left| < |idle| && idle[|left|] == r.value && r.value !in dead)
            && (forall k :: |left| < k < |idle| ==> idle[k] in dead)
  {
    if idle != [] {
      PoppedIsAPrefix(idle[..|idle| - 1], dead);
    }
  }

  lemma {:induction false} AliveIsTheRest(idle: seq<nat>, dead: set<nat>)
    requires NoDuplicates(idle)
    ensures NoDuplicates(Alive(idle, dead))
    ensures forall c :: c in Alive(idle, dead) <==> c in idle && c !in dead
  {
    if idle != [] {
      AliveIsTheRest(idle[..|idle| - 1], dead);
      assert idle == idle[..|idle| - 1] + [idle[|idle| - 1]];
    }
  }

  /** What is kept stays in the order it was in. */
  lemma {:induction false} AliveKeepsOrder(idle: seq<nat>, dead: set<nat>, j: nat, k: nat) returns (p: nat, q: nat)
    requires j < k < |idle| && idle[j] !in dead && idle[k] !in dead
    ensures p < q < |Alive(idle, dead)| && Alive(idle, dead)[p] == idle[j] && Alive(idle, dead)[q] == idle[k]
  {
    var before := idle[..|idle| - 1];
    if k < |before| {
      p, q := AliveKeepsOrder(before, dead, j, k);
    } else {
      p := KeptAlive(before, dead, j);
      q := |Alive(before, dead)|;
    }
  }

  lemma {:induction false} KeptAlive(idle: seq<nat>, dead: set<nat>, j: nat) returns (p: nat)
    requires j < |idle| && idle[j] !in dead
    ensures p < |Alive(idle, dead)| && Alive(idle, dead)[p] == idle[j]
  {
    if j < |idle| - 1 {
      p := KeptAlive(idle[..|idle| - 1], dead, j);
    } else {
      p := |Alive(idle[..|idle| - 1], dead)|;
    }
  }

  // ---------- every step keeps the invariant ----------

  /** One wire moves on and its owner stays content with it. */
  lemma WireChange(s: System, c: nat, w: Wire)
    requires Inv(s) && c < |s.wires| && WireOk(w)
    requires OwnerOk(s.(wires := s.wires[c := w]), c)
    ensures Inv(s.(wires := s.wires[c := w]))
  {
    hide WireOk, PlaceFits, DialFits, SentOk, Leases;
    var t := s.(wires := s.wires[c := w]);
    forall k | 0 <= k < |t.wires| ensures OwnerOk(t, k) && WireOk(t.wires[k]) {
      assert OwnerOk(s, k) && WireOk(s.wires[k]);
    }
    forall i | 0 <= i < |t.calls| ensures CallOk(t, i) {
      assert CallOk(s, i);
    }
  }

  /** A call and the wire it holds move on together. */
  lemma CallChange(s: System, i: nat, w: Wire, call: Call)
    requires Inv(s) && HasWire(s, i) && WireOk(w)
    requires ConnOf(call.place) == ConnOf(s.calls[i].place)
    requires PlaceFits(call.place, w.client) && SentOk(call)
    ensures var c := ConnOf(call.place).value;
            Inv(s.(wires := s.wires[c := w], calls := s.calls[i := call], active := Leases(s.calls[i := call])))
  {
    hide WireOk, PlaceFits, DialFits, SentOk, Leases;
    var c := ConnOf(call.place).value;
    var t := s.(wires := s.wires[c := w], calls := s.calls[i := call], active := Leases(s.calls[i := call]));
    assert CallOk(s, i);
    forall k | 0 <= k < |t.wires| ensures OwnerOk(t, k) && WireOk(t.wires[k]) {
      assert OwnerOk(s, k) && WireOk(s.wires[k]);
    }
    forall k | 0 <= k < |t.calls| ensures CallOk(t, k) {
      assert CallOk(s, k);
    }
  }

  /** A call that holds nothing moves on. */
  lemma FreeCallChange(s: System, i: nat, call: Call)
    requires Inv(s) && i < |s.calls| && ConnOf(s.calls[i].place) == None && ConnOf(call.place) == None
    requires SentOk(call)
    ensures Inv(s.(calls := s.calls[i := call]))
  {
    hide WireOk, PlaceFits, DialFits, SentOk;
    var t := s.(calls := s.calls[i := call]);
    LeasesUpdate(s.calls, i, call);
    forall k | 0 <= k < |t.wires| ensures OwnerOk(t, k) {
      assert OwnerOk(s, k);
    }
    forall k | 0 <= k < |t.calls| ensures CallOk(t, k) {
      assert CallOk(s, k);
    }
  }

  /** A connection nobody or its holder gives up: it is closed and has no owner. */
  lemma GivenUp(s: System, i: nat, call: Call)
    requires Inv(s) && HasWire(s, i) && ConnOf(call.place) == None && SentOk(call)
    ensures var c := ConnOf(s.calls[i].place).value;
            Inv(s.(wires := s.wires[c := Shut(s.wires[c])], owners := s.owners[c := Nobody],
                   calls := s.calls[i := call], active := Leases(s.calls[i := call])))
  {
    hide PlaceFits, DialFits, SentOk, Leases, Framed;
    var c := ConnOf(s.calls[i].place).value;
    var t := s.(wires := s.wires[c := Shut(s.wires[c])], owners := s.owners[c := Nobody],
                calls := s.calls[i := call], active := Leases(s.calls[i := call]));
    assert CallOk(s, i) && WireOk(s.wires[c]);
    ShutKeepsFramed(s.wires[c]);
    forall k | 0 <= k < |t.wires| ensures OwnerOk(t, k) && WireOk(t.wires[k]) {
      assert OwnerOk(s, k) && WireOk(s.wires[k]);
    }
    forall k | 0 <= k < |t.calls| ensures CallOk(t, k) {
      assert CallOk(s, k);
    }
  }

  lemma ShutKeepsFramed(w: Wire)
    requires Framed(w)
    ensures Framed(Shut(w)) && Shut(w).mayAbort == w.mayAbort
  {
    if w.client != Closed {
      ClientKeepsFramed(w, Close);
      assert Shut(w) == ClientStep(w, Close);
    } else {
      assert Shut(w) == w;
    }
  }

  /** A connection in step goes back to the pool. */
  lemma GivenBack(s: System, i: nat, call: Call)
    requires Inv(s) && HasWire(s, i) && WireOf(s, i).client.Ready? && ConnOf(call.place) == None && SentOk(call)
    ensures var c := ConnOf(s.calls[i].place).value;
            Inv(s.(idle := s.idle + [c], owners := s.owners[c := Pooled],
                   calls := s.calls[i := call], active := Leases(s.calls[i := call])))
  {
    hide PlaceFits, DialFits, SentOk, Leases, WireOk;
    var c := ConnOf(s.calls[i].place).value;
    var t := s.(idle := s.idle + [c], owners := s.owners[c := Pooled],
                calls := s.calls[i := call], active := Leases(s.calls[i := call]));
    assert CallOk(s, i);
    forall k | 0 <= k < |t.wires| ensures OwnerOk(t, k) {
      assert OwnerOk(s, k);
    }
    forall k | 0 <= k < |t.calls| ensures CallOk(t, k) {
      assert CallOk(s, k);
    }
  }

  /** A new connection for a dialing call. */
  lemma DialKeeps(s: System, i: nat)
    requires Inv(s) && Enabled(s, Dial(i))
    ensures Inv(Apply(s, Dial(i)))
  {
    hide Leases, Framed;
    var t := Apply(s, Dial(i));
    ConnectedIsFramed(false);
    LeasesUpdate(s.calls, i, t.calls[i]);
    forall k | 0 <= k < |t.wires| ensures OwnerOk(t, k) && WireOk(t.wires[k]) {
      if k < |s.wires| {
        assert OwnerOk(s, k) && WireOk(s.wires[k]);
      }
    }
    forall k | 0 <= k < |t.calls| ensures CallOk(t, k) {
      assert CallOk(s, k);
    }
  }

  /** And one for the reconnect worker. */
  lemma ScoutDialKeeps(s: System)
    requires Inv(s) && Enabled(s, ScoutDial)
    ensures Inv(Apply(s, ScoutDial))
  {
    hide Leases, Framed;
    var t := Apply(s, ScoutDial);
    ConnectedIsFramed(false);
    forall k | 0 <= k < |t.wires| ensures OwnerOk(t, k) && WireOk(t.wires[k]) {
      if k < |s.wires| {
        assert OwnerOk(s, k) && WireOk(s.wires[k]);
      }
    }
    forall k | 0 <= k < |t.calls| ensures CallOk(t, k) {
      assert CallOk(s, k);
    }
  }

  /** Culling keeps everything when what it closes was idle. */
  lemma CulledKeeps(s: System, left: seq<nat>)
    requires Inv(s) && NoDuplicates(left) && forall c :: c in left ==> c in s.idle
    ensures Inv(Culled(s, left, {}))
  {
    hide PlaceFits, DialFits, SentOk, Leases, Framed;
    var t := Culled(s, left, {});
    var gone := Members(s.idle) - Members(left);
    forall k | 0 <= k < |t.wires| ensures OwnerOk(t, k) && WireOk(t.wires[k]) {
      assert OwnerOk(s, k) && WireOk(s.wires[k]);
      ShutKeepsFramed(s.wires[k]);
      assert k in s.idle ==> s.owners[k] == Pooled;
    }
    forall k | 0 <= k < |t.calls| ensures CallOk(t, k) {
      assert CallOk(s, k);
    }
  }

  /** The last idle connection becomes a lease. */
  lemma Taken(s: System, i: nat, left: seq<nat>, c: nat)
    requires Inv(s) && i < |s.calls| && s.calls[i].place == Seeking && s.idle == left + [c]
    ensures c < |s.owners|
    ensures Inv(Owned(Placed(s, i, Holding(c, Acquired, true)), c, OfCall(i)).(idle := left, active := s.active + 1))
  {
    hide Leases, Framed, DialFits;
    assert s.idle[|left|] == c && c in s.idle;
    var t := Owned(Placed(s, i, Holding(c, Acquired, true)), c, OfCall(i)).(idle := left, active := s.active + 1);
    assert CallOk(s, i) && OwnerOk(s, c);
    LeasesUpdate(s.calls, i, t.calls[i]);
    assert forall x :: x in left ==> x in s.idle;
    forall k | 0 <= k < |left| ensures left[k] == s.idle[k] && left[k] != c {
      assert s.idle[k] != s.idle[|left|];
    }
    assert IdleOk(t);
    forall k | 0 <= k < |t.wires| ensures OwnerOk(t, k) && WireOk(t.wires[k]) {
      assert OwnerOk(s, k) && WireOk(s.wires[k]);
    }
    forall k | 0 <= k < |t.calls| ensures CallOk(t, k) {
      assert CallOk(s, k);
    }
  }

  lemma IdleIsDistinct(s: System)
    requires Inv(s)
    ensures NoDuplicates(s.idle) && Bounded(s)
  {
    hide WireOk, OwnerOk, CallOk, Leases;
  }

  /** The pool ran empty. */
  lemma DryLookKeeps(s: System, i: nat, left: seq<nat>)
    requires Inv(s) && i < |s.calls| && s.calls[i].place == Seeking && left == []
    ensures Inv(Placed(Culled(s, left, {}), i, Dry))
  {
    assert CallOk(s, i);
    hide Inv;
    CulledKeeps(s, left);
    var t := Culled(s, left, {});
    FreeCallChange(t, i, t.calls[i].(place := Dry));
  }

  /** A live connection was found; those behind it were dead. */
  lemma FoundLookKeeps(s: System, i: nat, left: seq<nat>, c: nat)
    requires Inv(s) && i < |s.calls| && s.calls[i].place == Seeking && left + [c] <= s.idle
    ensures Bounded(s) && c < |s.owners|
    ensures Inv(Owned(Placed(Culled(s, left, {c}), i, Holding(c, Acquired, true)).(active := s.active + 1), c, OfCall(i)))
  {
    hide Inv, Members, ShutAll, DisownAll;
    IdleIsDistinct(s);
    var kept := left + [c];
    KeptIsDistinct(s.idle, kept);
    CulledKeeps(s, kept);
    KeptMembers(left, c);
    assert Members(s.idle) - Members(kept) - {} == Members(s.idle) - Members(left) - {c};
    var t := Culled(s, kept, {});
    assert t.calls == s.calls && t.idle == left + [c];
    Taken(t, i, left, c);
  }

  lemma KeptIsDistinct(idle: seq<nat>, kept: seq<nat>)
    requires NoDuplicates(idle) && kept <= idle
    ensures NoDuplicates(kept) && forall c :: c in kept ==> c in idle
  {
  }

  lemma LookKeeps(s: System, i: nat, dead: set<nat>)
    requires Inv(s) && Enabled(s, Look(i, dead))
    ensures Inv(Apply(s, Look(i, dead)))
  {
    hide Inv, Popped;
    PoppedIsAPrefix(s.idle, dead);
    InvGivesBounds(s);
    match Popped(s.idle, dead)
    case (None, left) => DryLookKeeps(s, i, left);
    case (Some(c), left) => FoundLookKeeps(s, i, left, c);
  }

  lemma KeptMembers(left: seq<nat>, c: nat)
    ensures Members(left + [c]) == Members(left) + {c}
  {
  }

  /** A lease operation that leads to a stage that fits. */
  lemma LeaseStepKeeps(s: System, i: nat, a: ClientAction, stage: Stage, sent: nat)
    requires Inv(s) && HasWire(s, i) && s.calls[i].place.Holding? && ClientEnabled(WireOf(s, i), a)
    requires StageFits(stage, ClientStep(WireOf(s, i), a).client)
    requires SentOk(s.calls[i].(place := Moved(s.calls[i].place, stage), sent := sent))
    ensures var t := LeaseStep(s, i, a, stage); Inv(t.(calls := t.calls[i := t.calls[i].(sent := sent)]))
  {
    hide Leases, Framed, OwnerOk, CallOk, StageFits, IdleOk;
    var c := s.calls[i].place.conn;
    assert WireOk(s.wires[c]);
    ClientKeepsFramed(s.wires[c], a);
    var call := s.calls[i].(place := Moved(s.calls[i].place, stage), sent := sent);
    ClientKeepsKind(s.wires[c], a);
    CallChange(s, i, ClientStep(s.wires[c], a), call);
    LeasesUpdate(s.calls, i, call);
    var t := LeaseStep(s, i, a, stage);
    assert t.calls[i := t.calls[i].(sent := sent)] == s.calls[i := call];
  }

  lemma ClientKeepsKind(w: Wire, a: ClientAction)
    requires ClientEnabled(w, a)
    ensures ClientStep(w, a).mayAbort == w.mayAbort
  {
  }

  /** While a call holds a lease, the connection is its own and as the stage says. */
  lemma LeaseIsAsItSays(s: System, i: nat)
    requires Inv(s) && HasWire(s, i)
    ensures PlaceFits(s.calls[i].place, WireOf(s, i).client) && SentOk(s.calls[i])
    ensures s.owners[ConnOf(s.calls[i].place).value] == OfCall(i)
  {
    hide Framed, Leases, IdleOk;
    assert CallOk(s, i);
    assert OwnerOk(s, ConnOf(s.calls[i].place).value);
  }

  lemma InvGivesBounds(s: System)
    requires Inv(s)
    ensures Bounded(s)
  {
  }

  lemma LeaseOpsKeep(s: System, step: Step)
    requires Inv(s) && Enabled(s, step)
    requires step.PingStart? || step.PingRead? || step.PingGiveUp? || step.ResponseRead? || step.ExecGiveUp?
    ensures Inv(Apply(s, step))
  {
    hide Inv;
    var i := step.i;
    InvGivesBounds(s);
    LeaseIsAsItSays(s, i);
    var sent := s.calls[i].sent;
    match step {
      case PingStart(_, outcome) =>
        LeaseStepKeeps(s, i, SendPing(outcome), if outcome == Sent then Pinging else PingFailed, sent);
      case PingRead(_) => LeaseStepKeeps(s, i, ReadReply, AfterRead(WireOf(s, i), Pinged, PingFailed), sent);
      case PingGiveUp(_) => LeaseStepKeeps(s, i, GiveUp, PingFailed, sent);
      case ResponseRead(_) => LeaseStepKeeps(s, i, ReadReply, AfterRead(WireOf(s, i), Answered, Failed), sent);
      case ExecGiveUp(_) => LeaseStepKeeps(s, i, GiveUp, Failed, sent);
      case _ =>
    }
    var t := Apply(s, step);
    assert t.calls[i := t.calls[i].(sent := sent)] == t.calls;
  }

  lemma RequestSendKeeps(s: System, i: nat, kind: Kind, outcome: Outcome)
    requires Inv(s) && Enabled(s, RequestSend(i, kind, outcome))
    ensures Inv(Apply(s, RequestSend(i, kind, outcome)))
  {
    hide Inv;
    LeaseIsAsItSays(s, i);
    LeaseStepKeeps(s, i, SendRequest(kind, outcome), if outcome == Sent then Executing else Failed, s.calls[i].sent + 1);
  }

  lemma DropKeeps(s: System, i: nat, retry: bool)
    requires Inv(s) && Enabled(s, Drop(i, retry))
    ensures Inv(Apply(s, Drop(i, retry)))
  {
    hide Framed, OwnerOk, CallOk, IdleOk, Leases;
    LeaseIsAsItSays(s, i);
    var call := s.calls[i].(place := if retry then Seeking else Over);
    LeasesUpdate(s.calls, i, call);
    if s.calls[i].place.reusable {
      GivenBack(s, i, call);
    } else {
      GivenUp(s, i, call);
    }
  }

  lemma DialFailedKeeps(s: System, i: nat)
    requires Inv(s) && Enabled(s, DialFailed(i))
    ensures Inv(Apply(s, DialFailed(i)))
  {
    hide Framed, OwnerOk, CallOk, IdleOk, Leases;
    LeaseIsAsItSays(s, i);
    var call := s.calls[i].(place := Seeking);
    LeasesUpdate(s.calls, i, call);
    GivenUp(s, i, call);
  }

  lemma DialDoneKeeps(s: System, i: nat)
    requires Inv(s) && Enabled(s, DialDone(i))
    ensures Inv(Apply(s, DialDone(i)))
  {
    hide Framed, OwnerOk, CallOk, IdleOk, Leases;
    LeaseIsAsItSays(s, i);
    var c := s.calls[i].place.conn;
    var call := s.calls[i].(place := Holding(c, Acquired, true));
    LeasesUpdate(s.calls, i, call);
    CallChange(s, i, s.wires[c], call);
    assert s.wires[c := s.wires[c]] == s.wires;
  }

  lemma DialMoveKeeps(s: System, c: nat, a: ClientAction)
    requires Inv(s) && Enabled(s, DialMove(c, a))
    ensures Inv(Apply(s, DialMove(c, a)))
  {
    hide Framed, CallOk, IdleOk, Leases;
    var w := ClientStep(s.wires[c], a);
    assert WireOk(s.wires[c]) && OwnerOk(s, c);
    ClientKeepsFramed(s.wires[c], a);
    ClientKeepsKind(s.wires[c], a);
    if s.scout != ScoutDialing(c) {
      var i :| 0 <= i < |s.calls| && s.calls[i].place == Dialing(c);
      LeaseIsAsItSays(s, i);
    }
    WireChange(s, c, w);
  }

  lemma HostMovesKeeps(s: System, c: nat, a: HostAction)
    requires Inv(s) && Enabled(s, HostMoves(c, a))
    ensures Inv(Apply(s, HostMoves(c, a)))
  {
    hide Framed, CallOk, IdleOk, Leases;
    assert WireOk(s.wires[c]) && OwnerOk(s, c);
    HostKeepsFramed(s.wires[c], a);
    WireChange(s, c, HostMove(s.wires[c], a));
  }

  lemma NotDialing(s: System, left: seq<nat>)
    requires Bounded(s) && !s.scout.ScoutDialing?
    ensures !Culled(s, left, {}).scout.ScoutDialing?
  {
  }

  lemma ScoutLookKeeps(s: System, dead: set<nat>)
    requires Inv(s) && Enabled(s, ScoutLook(dead))
    ensures Inv(Apply(s, ScoutLook(dead)))
  {
    hide Inv, Alive, Culled;
    IdleIsDistinct(s);
    AliveIsTheRest(s.idle, dead);
    CulledKeeps(s, Alive(s.idle, dead));
    NotDialing(s, Alive(s.idle, dead));
    ScoutRests(Culled(s, Alive(s.idle, dead), {}), Apply(s, ScoutLook(dead)).scout);
  }

  lemma ScoutRests(s: System, scout: Scout)
    requires Inv(s) && !s.scout.ScoutDialing? && !scout.ScoutDialing?
    ensures Inv(s.(scout := scout))
  {
    hide Framed, Leases, PlaceFits, DialFits;
    var t := s.(scout := scout);
    forall k | 0 <= k < |t.wires| ensures OwnerOk(t, k) {
      assert OwnerOk(s, k);
    }
    forall k | 0 <= k < |t.calls| ensures CallOk(t, k) {
      assert CallOk(s, k);
    }
  }

  lemma ScoutDoneKeeps(s: System)
    requires Inv(s) && Enabled(s, ScoutDone)
    ensures Inv(Apply(s, ScoutDone))
  {
    hide Framed, Leases, PlaceFits;
    var t := Apply(s, ScoutDone);
    forall k | 0 <= k < |t.wires| ensures OwnerOk(t, k) {
      assert OwnerOk(s, k);
    }
    forall k | 0 <= k < |t.calls| ensures CallOk(t, k) {
      assert CallOk(s, k);
    }
  }

  lemma ScoutFailedKeeps(s: System)
    requires Inv(s) && Enabled(s, ScoutFailed)
    ensures Inv(Apply(s, ScoutFailed))
  {
    hide Framed, Leases, PlaceFits;
    var t := Apply(s, ScoutFailed);
    assert WireOk(s.wires[s.scout.conn]);
    ShutKeepsFramed(s.wires[s.scout.conn]);
    forall k | 0 <= k < |t.wires| ensures OwnerOk(t, k) && WireOk(t.wires[k]) {
      assert OwnerOk(s, k) && WireOk(s.wires[k]);
    }
    forall k | 0 <= k < |t.calls| ensures CallOk(t, k) {
      assert CallOk(s, k);
    }
  }

  lemma BeginKeeps(s: System, exec: bool)
    requires Inv(s)
    ensures Inv(Apply(s, Begin(exec)))
  {
    hide Framed, Leases, PlaceFits, DialFits;
    var t := Apply(s, Begin(exec));
    LeasesMore(s.calls, Call(exec, Seeking, 0));
    forall k | 0 <= k < |t.wires| ensures OwnerOk(t, k) {
      assert OwnerOk(s, k);
    }
    forall k | 0 <= k < |t.calls| ensures CallOk(t, k) {
      if k < |s.calls| {
        assert CallOk(s, k);
      }
    }
  }

  lemma FreeMoveKeeps(s: System, i: nat, place: Place)
    requires Inv(s) && i < |s.calls| && (s.calls[i].place == Dry || s.calls[i].place == Seeking)
    requires place == Seeking || place == Over
    ensures Inv(Placed(s, i, place))
  {
    hide Framed, Leases, PlaceFits, DialFits;
    assert CallOk(s, i);
    FreeCallChange(s, i, s.calls[i].(place := place));
  }

  /** Every step of every call, of the reconnect worker and of every host keeps the invariant. */
  lemma StepKeepsInv(s: System, step: Step)
    requires Inv(s) && Enabled(s, step)
    ensures Inv(Apply(s, step))
  {
    hide OwnerOk, WireOk, CallOk, Leases, Framed;
    match step
    case Begin(exec) => BeginKeeps(s, exec);
    case Look(i, dead) => LookKeeps(s, i, dead);
    case Expire(i) => FreeMoveKeeps(s, i, Over);
    case Refused(i) => FreeMoveKeeps(s, i, Seeking);
    case Dial(i) => DialKeeps(s, i);
    case DialMove(c, a) => DialMoveKeeps(s, c, a);
    case DialDone(i) => DialDoneKeeps(s, i);
    case DialFailed(i) => DialFailedKeeps(s, i);
    case RequestSend(i, kind, outcome) => RequestSendKeeps(s, i, kind, outcome);
    case Drop(i, retry) => DropKeeps(s, i, retry);
    case ScoutLook(dead) => ScoutLookKeeps(s, dead);
    case ScoutRefused => ScoutRests(s, Resting);
    case ScoutDial => ScoutDialKeeps(s);
    case ScoutDone => ScoutDoneKeeps(s);
    case ScoutFailed => ScoutFailedKeeps(s);
    case HostMoves(c, a) => HostMovesKeeps(s, c, a);
    case _ => LeaseOpsKeep(s, step);
  }
}
