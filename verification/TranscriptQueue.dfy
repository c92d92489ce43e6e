/** The reorder buffer of src/host.rs that journals records in sequence-number order and
    feeds the attached clients. */
module TranscriptQueues {
  import opened Bytes
  import opened Protocol

  datatype Record = Record(entry: TranscriptEntry, rawOutput: bytes)

  /** `sender` names the channel of the attachment. */
  datatype Subscriber = Subscriber(ansi: bool, sender: nat)

  /** An mpsc channel: `sent` is everything ever put in it, `open` whether its receiver lives.
      `ansi` and `since` (how much was drained at `subscribe`) record how it came about. */
  datatype Channel = Channel(ansi: bool, since: nat, open: bool, sent: seq<TranscriptEntry>)

  /** `drained` is what has been appended to the journal file, with the raw output. */
  datatype Queue = Queue(
    next: nat,
    pending: map<nat, Record>,
    subscribers: seq<Subscriber>,
    channels: seq<Channel>,
    drained: seq<Record>)

  const EMPTY := Queue(0, map[], [], [], [])

  function Senders(subscribers: seq<Subscriber>): set<nat> {
    set s | s in subscribers :: s.sender
  }

  ghost predicate Wired(subscribers: seq<Subscriber>, channels: seq<Channel>) {
    && (forall s :: s in subscribers ==> s.sender < |channels| && channels[s.sender].ansi == s.ansi)
    && (forall j, k :: 0 <= j < k < |subscribers| ==> subscribers[j].sender != subscribers[k].sender)
  }

  /** What an attachment sees of a record: the raw output if it asked for it. */
  function Seen(r: Record, ansi: bool): TranscriptEntry {
    if ansi then r.entry.(output := r.rawOutput) else r.entry
  }

  function Send(channels: seq<Channel>, s: Subscriber, r: Record): seq<Channel>
    requires s.sender < |channels|
  {
    var c := channels[s.sender];
    channels[s.sender := c.(sent := c.sent + [Seen(r, s.ansi)])]
  }

  /** The subscribers that survive sending them r: those whose channel is open. */
  function Retained(subscribers: seq<Subscriber>, channels: seq<Channel>, r: Record): (seq<Subscriber>, seq<Channel>)
    requires forall s :: s in subscribers ==> s.sender < |channels|
    decreases subscribers
  {
    if subscribers == [] then ([], channels)
    else
      var s := subscribers[0];
      if channels[s.sender].open then
        var (kept, ch) := Retained(subscribers[1..], Send(channels, s, r), r);
        ([s] + kept, ch)
      else
        Retained(subscribers[1..], channels, r)
  }

  ghost predicate Linked(q: Queue) {
    Wired(q.subscribers, q.channels)
  }

  function DrainOne(q: Queue): Queue
    requires q.next in q.pending && forall s :: s in q.subscribers ==> s.sender < |q.channels|
  {
    var r := q.pending[q.next];
    var (kept, channels) := Retained(q.subscribers, q.channels, r);
    Queue(q.next + 1, q.pending - {q.next}, kept, channels, q.drained + [r])
  }

  lemma {:induction false} RetainedIsPointwise(subscribers: seq<Subscriber>, channels: seq<Channel>, r: Record)
    requires Wired(subscribers, channels)
    ensures var (kept, ch) := Retained(subscribers, channels, r);
            && Wired(kept, ch) && |ch| == |channels|
            && (forall s :: s in kept <==> s in subscribers && channels[s.sender].open)
            && (forall id :: 0 <= id < |channels| ==>
                  ch[id] == if id in Senders(subscribers) && channels[id].open
                            then channels[id].(sent := channels[id].sent + [Seen(r, channels[id].ansi)])
                            else channels[id])
    decreases subscribers
  {
    if subscribers != [] {
      var s, rest := subscribers[0], subscribers[1..];
      assert subscribers == [s] + rest;
      assert Senders(subscribers) == {s.sender} + Senders(rest);
      assert s.sender !in Senders(rest);
      if channels[s.sender].open {
        var ch := Send(channels, s, r);
        RetainedIsPointwise(rest, ch, r);
      } else {
        RetainedIsPointwise(rest, channels, r);
      }
    }
  }

  lemma DrainOneIsLinked(q: Queue)
    requires Linked(q) && q.next in q.pending
    ensures Linked(DrainOne(q))
    ensures |DrainOne(q).channels| == |q.channels|
  {
    RetainedIsPointwise(q.subscribers, q.channels, q.pending[q.next]);
  }

  /** Append every record that is next in line. */
  ghost function Drain(q: Queue): (d: Queue)
    requires Linked(q)
    ensures Linked(d) && |d.channels| == |q.channels|
    decreases |q.pending|
  {
    if q.next !in q.pending then q
    else
      DrainOneIsLinked(q);
      assert q.pending.Keys == (q.pending - {q.next}).Keys + {q.next};
      Drain(DrainOne(q))
  }

  ghost function Submitted(q: Queue, number: nat, r: Record): (d: Queue)
    requires Linked(q)
    ensures Linked(d) && |d.channels| == |q.channels|
  {
    Drain(q.(pending := q.pending[number := r]))
  }

  function Subscribed(q: Queue, ansi: bool): Queue {
    q.(subscribers := q.subscribers + [Subscriber(ansi, |q.channels|)],
       channels := q.channels + [Channel(ansi, q.next, true, [])])
  }

  function Unsubscribed(q: Queue): Queue {
    q.(subscribers := [])
  }

  /** The attachment thread returned and dropped its receiver. */
  function HungUp(q: Queue, id: nat): Queue
    requires id < |q.channels|
  {
    q.(channels := q.channels[id := q.channels[id].(open := false)])
  }

  class TranscriptQueue {
    var next: nat
    var pending: map<nat, Record>
    var subscribers: seq<Subscriber>
    var channels: seq<Channel>
    var drained: seq<Record>

    ghost function Value(): Queue
      reads this
    {
      Queue(next, pending, subscribers, channels, drained)
    }

    constructor ()
      ensures Value() == EMPTY
    {
      next, pending, subscribers, channels, drained := 0, map[], [], [], [];
    }

    /** The `retain` over the subscribers. */
    method Broadcast(r: Record)
      requires Linked(Value())
      modifies this`subscribers, this`channels
      ensures var (s, c) := Retained(old(subscribers), old(channels), r); subscribers == s && channels == c
    {
      var kept: seq<Subscriber> := [];
      ghost var all := Retained(subscribers, channels, r);
      assert subscribers[0..] == subscribers;
      for i := 0 to |subscribers|
        invariant subscribers == old(subscribers)
        invariant |channels| == |old(channels)|
        invariant var rest := Retained(subscribers[i..], channels, r); all.0 == kept + rest.0 && all.1 == rest.1
      {
        var s := subscribers[i];
        assert subscribers[i..] == [s] + subscribers[i + 1..];
        if channels[s.sender].open {
          channels := Send(channels, s, r);
          kept := kept + [s];
        }
      }
      subscribers := kept;
    }

    method Submit(number: nat, r: Record)
      requires Linked(Value())
      modifies this
      ensures Linked(Value())
      ensures Value() == Submitted(old(Value()), number, r)
    {
      pending := pending[number := r];
      ghost var goal := Drain(Value());
      while next in pending
        invariant Linked(Value())
        invariant Drain(Value()) == goal
        decreases |pending|
      {
        ghost var was := Value();
        DrainOneIsLinked(was);
        var record := pending[next];
        assert pending.Keys == (pending - {next}).Keys + {next};
        pending := pending - {next};
        drained := drained + [record];
        Broadcast(record);
        next := next + 1;
        assert Value() == DrainOne(was);
      }
    }

    method Subscribe(ansi: bool) returns (receiver: nat)
      modifies this
      ensures Value() == Subscribed(old(Value()), ansi)
      ensures receiver == |old(channels)|
    {
      receiver := |channels|;
      channels := channels + [Channel(ansi, next, true, [])];
      subscribers := subscribers + [Subscriber(ansi, receiver)];
    }

    method CloseSubscriptions()
      modifies this
      ensures Value() == Unsubscribed(old(Value()))
    {
      subscribers := [];
    }
  }

  // ---------- the journal ----------

  /** The queue after the submissions `m`: the journal holds 0..next-1 in order, next is the
      least number not submitted, and what was submitted beyond it waits. */
  ghost predicate Reordered(q: Queue, m: map<nat, Record>) {
    && Draining(q, m)
    && q.next !in m
  }

  /** The same while a drain is under way. */
  ghost predicate Draining(q: Queue, m: map<nat, Record>) {
    && |q.drained| == q.next
    && (forall i :: 0 <= i < q.next ==> i in m && q.drained[i] == m[i])
    && q.pending == map i | i in m && i >= q.next :: m[i]
  }

  lemma DrainOneReorders(q: Queue, m: map<nat, Record>)
    requires Linked(q) && Draining(q, m) && q.next in q.pending
    ensures Draining(DrainOne(q), m)
  {
    var d := DrainOne(q);
    assert d.pending == q.pending - {q.next};
    assert d.drained == q.drained + [m[q.next]];
  }

  lemma {:induction false} DrainReorders(q: Queue, m: map<nat, Record>)
    requires Linked(q) && Draining(q, m)
    ensures Reordered(Drain(q), m)
    decreases |q.pending|
  {
    if q.next in q.pending {
      DrainOneIsLinked(q);
      assert q.pending.Keys == (q.pending - {q.next}).Keys + {q.next};
      DrainOneReorders(q, m);
      DrainReorders(DrainOne(q), m);
    }
  }

  /** Submitting a fresh number keeps the characterisation, whatever the number is. */
  lemma SubmitReorders(q: Queue, m: map<nat, Record>, number: nat, r: Record)
    requires Linked(q) && Reordered(q, m) && number !in m
    ensures Reordered(Submitted(q, number, r), m[number := r])
  {
    DrainReorders(q.(pending := q.pending[number := r]), m[number := r]);
  }

  datatype Submission = Submission(number: nat, record: Record)

  ghost function SubmitAll(s: seq<Submission>): (d: Queue)
    ensures Linked(d)
  {
    if s == [] then EMPTY
    else
      var last := s[|s| - 1];
      Submitted(SubmitAll(s[..|s| - 1]), last.number, last.record)
  }

  function Numbers(s: seq<Submission>): set<nat> {
    set x | x in s :: x.number
  }

  predicate Distinct(s: seq<Submission>) {
    forall j, k :: 0 <= j < k < |s| ==> s[j].number != s[k].number
  }

  function Contents(s: seq<Submission>): (m: map<nat, Record>)
    ensures m.Keys == Numbers(s)
  {
    if s == [] then map[]
    else
      var last := s[|s| - 1];
      assert s == s[..|s| - 1] + [last];
      Contents(s[..|s| - 1])[last.number := last.record]
  }

  lemma {:induction false} AnyOrderReorders(s: seq<Submission>)
    requires Distinct(s)
    ensures Reordered(SubmitAll(s), Contents(s))
  {
    if s != [] {
      var last, before := s[|s| - 1], s[..|s| - 1];
      AnyOrderReorders(before);
      SubmitReorders(SubmitAll(before), Contents(before), last.number, last.record);
    }
  }

  /** Confluence: two orders of the same submissions leave the same journal and buffer. */
  lemma Confluence(s: seq<Submission>, t: seq<Submission>)
    requires Distinct(s) && Distinct(t) && Contents(s) == Contents(t)
    ensures SubmitAll(s).next == SubmitAll(t).next
    ensures SubmitAll(s).drained == SubmitAll(t).drained
    ensures SubmitAll(s).pending == SubmitAll(t).pending
  {
    AnyOrderReorders(s);
    AnyOrderReorders(t);
    ReorderedIsUnique(SubmitAll(s), SubmitAll(t), Contents(s));
  }

  lemma ReorderedIsUnique(p: Queue, q: Queue, m: map<nat, Record>)
    requires Reordered(p, m) && Reordered(q, m)
    ensures p.next == q.next && p.drained == q.drained && p.pending == q.pending
  {
    assert p.next <= q.next;
    assert q.next <= p.next;
  }

  /** Every permutation of 0..n-1 is journalled whole, in order, and nothing is left waiting. */
  lemma PermutationIsJournalled(s: seq<Submission>, n: nat)
    requires Distinct(s) && forall i: nat :: i in Numbers(s) <==> i < n
    ensures SubmitAll(s).next == n && SubmitAll(s).pending == map[]
    ensures |SubmitAll(s).drained| == n
    ensures forall i :: 0 <= i < n ==> SubmitAll(s).drained[i] == Contents(s)[i]
  {
    AnyOrderReorders(s);
    var q, m := SubmitAll(s), Contents(s);
    assert n !in m;
    assert q.next in Numbers(s) <==> q.next < n;
    assert q.pending.Keys == {};
  }

  /** A number that is never submitted stalls the journal there, and only there: the journal
      reaches k exactly when everything below k has been submitted. */
  lemma JournalReaches(q: Queue, m: map<nat, Record>, k: nat)
    requires Reordered(q, m)
    ensures k <= |q.drained| <==> forall i: nat :: i < k ==> i in m
  {
    if k <= |q.drained| {
    } else {
      assert q.next !in m;
    }
  }

  // ---------- the attachments ----------

  /** The entries of records from..to as an attachment sees them. */
  function Stream(records: seq<Record>, from: nat, to: nat, ansi: bool): seq<TranscriptEntry>
    requires from <= to <= |records|
  {
    seq(to - from, i requires 0 <= i < to - from => Seen(records[from + i], ansi))
  }

  ghost predicate ExactChannel(c: Channel, records: seq<Record>) {
    && c.since + |c.sent| <= |records|
    && c.sent == Stream(records, c.since, c.since + |c.sent|, c.ansi)
  }

  /** Every channel holds an unbroken stretch of the journal from its subscription on, and that
      of a current subscriber reaches the end of the journal. */
  ghost predicate ExactStreams(q: Queue) {
    && Linked(q)
    && |q.drained| == q.next
    && (forall id :: 0 <= id < |q.channels| ==> ExactChannel(q.channels[id], q.drained))
    && (forall id :: id in Senders(q.subscribers) ==> q.channels[id].since + |q.channels[id].sent| == q.next)
  }

  lemma DrainOneIsExact(q: Queue)
    requires ExactStreams(q) && q.next in q.pending
    ensures ExactStreams(DrainOne(q)) && OnlySubscribersHear(q, DrainOne(q))
  {
    var r := q.pending[q.next];
    var d := DrainOne(q);
    RetainedIsPointwise(q.subscribers, q.channels, r);
    forall id | 0 <= id < |d.channels| ensures ExactChannel(d.channels[id], d.drained) {
      var c := q.channels[id];
      assert ExactChannel(c, q.drained);
      if id in Senders(q.subscribers) && c.open {
        assert Stream(d.drained, c.since, q.next + 1, c.ansi)
            == Stream(q.drained, c.since, q.next, c.ansi) + [Seen(r, c.ansi)];
      } else {
        assert Stream(d.drained, c.since, c.since + |c.sent|, c.ansi)
            == Stream(q.drained, c.since, c.since + |c.sent|, c.ansi);
      }
    }
  }

  /** Between q and d nobody joined, and who is not subscribed (any more) was sent nothing. */
  ghost predicate OnlySubscribersHear(q: Queue, d: Queue) {
    && |d.channels| == |q.channels|
    && Senders(d.subscribers) <= Senders(q.subscribers)
    && (forall id :: 0 <= id < |q.channels| && id !in Senders(q.subscribers) ==> d.channels[id] == q.channels[id])
    && (forall id :: 0 <= id < |q.channels| && !q.channels[id].open ==> d.channels[id] == q.channels[id])
    && (forall id :: 0 <= id < |q.channels| ==> d.channels[id].open == q.channels[id].open)
  }

  lemma {:induction false} DrainIsExact(q: Queue)
    requires ExactStreams(q)
    ensures ExactStreams(Drain(q)) && OnlySubscribersHear(q, Drain(q))
    decreases |q.pending|
  {
    if q.next in q.pending {
      assert q.pending.Keys == (q.pending - {q.next}).Keys + {q.next};
      DrainOneIsExact(q);
      DrainIsExact(DrainOne(q));
    }
  }

  /** Submitting feeds each current subscriber exactly what it drains. */
  lemma SubmitIsExact(q: Queue, number: nat, r: Record)
    requires ExactStreams(q)
    ensures ExactStreams(Submitted(q, number, r)) && OnlySubscribersHear(q, Submitted(q, number, r))
  {
    DrainIsExact(q.(pending := q.pending[number := r]));
  }

  /** A failed send costs the subscription: after a drain step every subscriber is open. */
  lemma ClosedReceiversAreDropped(q: Queue, number: nat, r: Record, id: nat)
    requires Linked(q) && id < |q.channels| && !q.channels[id].open
    requires Submitted(q, number, r).next > q.next
    ensures id !in Senders(Submitted(q, number, r).subscribers)
  {
    var p := q.(pending := q.pending[number := r]);
    RetainedIsPointwise(p.subscribers, p.channels, p.pending[p.next]);
    DrainOneIsLinked(p);
    StayUnsubscribed(DrainOne(p), id);
  }

  lemma {:induction false} StayUnsubscribed(q: Queue, id: nat)
    requires Linked(q) && id !in Senders(q.subscribers)
    ensures id !in Senders(Drain(q).subscribers)
    decreases |q.pending|
  {
    if q.next in q.pending {
      assert q.pending.Keys == (q.pending - {q.next}).Keys + {q.next};
      RetainedIsPointwise(q.subscribers, q.channels, q.pending[q.next]);
      DrainOneIsLinked(q);
      StayUnsubscribed(DrainOne(q), id);
    }
  }

  lemma SubscribeIsExact(q: Queue, ansi: bool)
    requires ExactStreams(q)
    ensures ExactStreams(Subscribed(q, ansi))
    ensures forall id :: 0 <= id < |q.channels| ==> Subscribed(q, ansi).channels[id] == q.channels[id]
    ensures Senders(Subscribed(q, ansi).subscribers) == Senders(q.subscribers) + {|q.channels|}
  {
    var d := Subscribed(q, ansi);
    assert d.subscribers[..|q.subscribers|] == q.subscribers;
    assert d.subscribers[|q.subscribers|].sender == |q.channels|;
    forall id | 0 <= id < |d.channels| ensures ExactChannel(d.channels[id], d.drained) {
      if id < |q.channels| {
        assert ExactChannel(q.channels[id], q.drained);
      }
    }
  }

  /** What waited behind a gap is sent to an attachment that came later, although it was
      complete before: what counts is the number, not the time. */
  lemma AttachmentHearsWhatWaited(first: Record, second: Record, ansi: bool)
    ensures var q := Subscribed(Submitted(EMPTY, 1, second), ansi);
            && 1 in q.pending && q.channels[0].sent == []
            && Submitted(q, 0, first).channels[0].sent == [Seen(first, ansi), Seen(second, ansi)]
  {
    SubmitReorders(EMPTY, map[], 1, second);
    SubmitIsExact(EMPTY, 1, second);
    var q := Subscribed(Submitted(EMPTY, 1, second), ansi);
    assert q.next == 0 && q.drained == [] && q.pending == map[1 := second];
    WholeStream(q, first, second);
  }

  lemma WholeStream(q: Queue, first: Record, second: Record)
    requires Linked(q) && q.next == 0 && q.drained == [] && q.pending == map[1 := second]
    requires |q.subscribers| == 1 == |q.channels| && q.subscribers[0].sender == 0
    requires q.channels[0].open && q.channels[0].sent == []
    ensures Submitted(q, 0, first).channels[0].sent == [Seen(first, q.channels[0].ansi), Seen(second, q.channels[0].ansi)]
  {
    var p := q.(pending := q.pending[0 := first]);
    RetainedIsPointwise(p.subscribers, p.channels, first);
    DrainOneIsLinked(p);
    var d := DrainOne(p);
    assert p.subscribers[0] in p.subscribers && p.subscribers[1..] == [];
    assert d.subscribers == p.subscribers;
    assert d.next == 1 && d.pending == map[1 := second];
    RetainedIsPointwise(d.subscribers, d.channels, second);
    DrainOneIsLinked(d);
    assert d.subscribers[0] in d.subscribers;
    var e := DrainOne(d);
    assert Drain(e) == e;
    assert Drain(d) == e;
    assert Drain(p) == Drain(d);
  }

  lemma HangUpIsExact(q: Queue, id: nat)
    requires ExactStreams(q) && id < |q.channels|
    ensures ExactStreams(HungUp(q, id))
  {
    var d := HungUp(q, id);
    forall k | 0 <= k < |d.channels| ensures ExactChannel(d.channels[k], d.drained) {
      assert ExactChannel(q.channels[k], q.drained);
    }
  }
}
