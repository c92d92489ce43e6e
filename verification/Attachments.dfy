/** What an attachment is sent, told from the step at which it attached (src/host.rs). */
module Attachments {
  import opened Bytes
  import opened Protocol
  import opened TranscriptQueues
  import opened Commands
  import opened Hosts
  import opened HostTheorems

  // ---------- what no step changes ----------

  /** d comes later than q: the journal has at most grown, and every channel is labelled as it was. */
  ghost predicate Later(q: Queue, d: Queue) {
    && q.drained <= d.drained
    && |q.channels| <= |d.channels|
    && forall id :: 0 <= id < |q.channels| ==>
         d.channels[id].ansi == q.channels[id].ansi && d.channels[id].since == q.channels[id].since
  }

  lemma LaterStill(p: Queue, q: Queue, d: Queue)
    requires Later(p, q) && Later(q, d)
    ensures Later(p, d)
  {
  }

  lemma {:induction false} DrainIsLater(q: Queue)
    requires Linked(q)
    ensures Later(q, Drain(q))
    decreases |q.pending|
  {
    if q.next in q.pending {
      RetainedIsPointwise(q.subscribers, q.channels, q.pending[q.next]);
      DrainOneIsLinked(q);
      assert q.pending.Keys == (q.pending - {q.next}).Keys + {q.next};
      DrainIsLater(DrainOne(q));
      LaterStill(q, DrainOne(q), Drain(DrainOne(q)));
    }
  }

  lemma StepIsLater(h: Host, s: Step)
    requires Linked(h.transcript) && StepEnabled(h, s)
    ensures Later(h.transcript, Apply(h, s).transcript)
  {
    hide Act, Enabled, Shows, Logged, RecordOf, Idle, Drain;
    if s.Submit? {
      var q := h.transcript;
      DrainIsLater(q.(pending := q.pending[s.number := RecordOf(h.commands[s.number])]));
    }
  }

  /** A run's beginning is a run, and what comes after it is later. */
  lemma {:induction false} RunIsLater(silent: bool, steps: seq<Step>, more: seq<Step>)
    ensures var r := Run(silent, steps + more);
            r.Some? ==> Run(silent, steps).Some? && Later(Run(silent, steps).value.transcript, r.value.transcript)
    decreases more
  {
    hide Apply, StepEnabled;
    if more == [] {
      assert steps + more == steps;
    } else {
      var before, last := more[..|more| - 1], more[|more| - 1];
      assert (steps + more)[..|steps + more| - 1] == steps + before;
      RunIsLater(silent, steps, before);
      var r := Run(silent, steps + before);
      if r.Some? && StepEnabled(r.value, last) {
        StepIsLater(r.value, last);
        LaterStill(Run(silent, steps).value.transcript, r.value.transcript, Apply(r.value, last).transcript);
      }
    }
  }

  // ---------- staying attached ----------

  ghost predicate IsAttached(q: Queue, id: nat) {
    id < |q.channels| && q.channels[id].open && id in Senders(q.subscribers)
  }

  lemma {:induction false} DrainKeepsAttached(q: Queue, id: nat)
    requires Linked(q) && IsAttached(q, id)
    ensures IsAttached(Drain(q), id)
    decreases |q.pending|
  {
    if q.next in q.pending {
      RetainedIsPointwise(q.subscribers, q.channels, q.pending[q.next]);
      DrainOneIsLinked(q);
      assert q.pending.Keys == (q.pending - {q.next}).Keys + {q.next};
      var s :| s in q.subscribers && s.sender == id;
      assert s in DrainOne(q).subscribers;
      DrainKeepsAttached(DrainOne(q), id);
    }
  }

  /** The two ways out: the attachment's thread returns, or the host shuts down. */
  predicate Detaches(s: Step, id: nat) {
    s == HangUp(id) || s == CloseSubscriptions
  }

  lemma StepKeepsAttached(h: Host, s: Step, id: nat)
    requires Linked(h.transcript) && StepEnabled(h, s) && IsAttached(h.transcript, id) && !Detaches(s, id)
    ensures IsAttached(Apply(h, s).transcript, id)
  {
    hide Act, Enabled, Shows, Logged, RecordOf, Idle, Drain;
    var q := h.transcript;
    match s
    case Submit(i) => DrainKeepsAttached(q.(pending := q.pending[i := RecordOf(h.commands[i])]), id);
    case Attach(ansi) =>
      var x :| x in q.subscribers && x.sender == id;
      assert x in Subscribed(q, ansi).subscribers;
    case _ =>
  }

  lemma {:induction false} StaysAttached(silent: bool, steps: seq<Step>, more: seq<Step>, id: nat)
    requires var r := Run(silent, steps); r.Some? && IsAttached(r.value.transcript, id)
    requires forall s :: s in more ==> !Detaches(s, id)
    ensures var r := Run(silent, steps + more); r.Some? ==> IsAttached(r.value.transcript, id)
    decreases more
  {
    hide Apply, StepEnabled, IsAttached;
    if more == [] {
      assert steps + more == steps;
    } else {
      var before, last := more[..|more| - 1], more[|more| - 1];
      assert (steps + more)[..|steps + more| - 1] == steps + before;
      StaysAttached(silent, steps, before, id);
      var r := Run(silent, steps + before);
      if r.Some? && StepEnabled(r.value, last) {
        assert last in more;
        StepKeepsAttached(r.value, last, id);
      }
    }
  }

  // ---------- from the step of attaching ----------

  /** The step makes a channel with the next number, from the end of the journal on, as asked. */
  lemma AttachingAsksOnce(silent: bool, before: seq<Step>, ansi: bool)
    ensures var b, a := Run(silent, before), Run(silent, before + [Attach(ansi)]);
            && (b.Some? <==> a.Some?)
            && (b.Some? ==>
                  var id := |b.value.transcript.channels|;
                  && IsAttached(a.value.transcript, id)
                  && a.value.transcript.channels[id] == Channel(ansi, |b.value.transcript.drained|, true, []))
  {
    hide Inv;
    assert (before + [Attach(ansi)])[..|before|] == before;
    var b := Run(silent, before);
    if b.Some? {
      RunKeepsInv(silent, before);
      JournalHasItsNumber(b.value);
      var q := Subscribed(b.value.transcript, ansi);
      assert q.subscribers[|q.subscribers| - 1] in q.subscribers;
    }
  }

  lemma JournalHasItsNumber(h: Host)
    requires Inv(h)
    ensures h.transcript.next == |h.transcript.drained|
  {
    hide CommandsOk, TurnsOk, ConsoleOk, LogOk, Linked;
  }

  /** What an attachment is sent for a command, field by field: the output is the raw one if it
      asked for that (for a failed spawn there is only the message), the client's otherwise. */
  predicate Reports(e: TranscriptEntry, c: Command, raw: bool) {
    && c.response.Some?
    && e.whoami == c.request.whoami && e.dir == c.request.dir && e.envs == c.request.envs
    && e.clearEnv == c.request.clearEnv && e.exec == c.request.exec && e.timeout == c.request.timeout
    && e.exit == c.response.value.exit && e.error == c.response.value.error && e.time == Some(c.time)
    && e.output == if raw && c.spawned then c.pty.rawTotal else c.response.value.output
  }

  /** The channel of an attachment made after `before`, once `more` has happened too. */
  ghost predicate Serves(b: Host, h: Host, ansi: bool, sent: seq<TranscriptEntry>) {
    var n := |b.transcript.drained|;
    && b.transcript.drained <= h.transcript.drained
    && n + |sent| <= |h.transcript.drained| <= |h.commands|
    && forall k :: 0 <= k < |sent| ==> Reports(sent[k], h.commands[n + k], ansi)
  }

  lemma SeenReports(c: Command, ansi: bool)
    requires c.response.Some?
    ensures Reports(Seen(RecordOf(c), ansi), c, ansi)
  {
  }

  /** Whatever happens after an attachment: it has been sent the records journalled since it
      attached, from the first on, in order, without gap or repetition, and raw if and only if
      it asked for that; and all of them unless it hung up or the host shut down. */
  lemma AttachmentsSeeTheJournal(silent: bool, before: seq<Step>, ansi: bool, more: seq<Step>)
    ensures var b, r := Run(silent, before), Run(silent, before + [Attach(ansi)] + more);
            r.Some? ==>
              && b.Some?
              && var id := |b.value.transcript.channels|;
                 && id < |r.value.transcript.channels|
                 && var sent := r.value.transcript.channels[id].sent;
                    && Serves(b.value, r.value, ansi, sent)
                    && ((forall s :: s in more ==> !Detaches(s, id)) ==>
                          |b.value.transcript.drained| + |sent| == |r.value.transcript.drained|)
  {
    hide Run, RecordOf, Seen, Apply, StepEnabled;
    var steps := before + [Attach(ansi)];
    AttachingAsksOnce(silent, before, ansi);
    RunIsLater(silent, steps, more);
    RunIsLater(silent, before, [Attach(ansi)]);
    JournalIsExact(silent, steps + more);
    var r := Run(silent, steps + more);
    if r.Some? {
      var b := Run(silent, before);
      var id := |b.value.transcript.channels|;
      ChannelsAreStretches(silent, steps + more, id);
      var n, sent := |b.value.transcript.drained|, r.value.transcript.channels[id].sent;
      hide Reports;
      forall k | 0 <= k < |sent| ensures Reports(sent[k], r.value.commands[n + k], ansi) {
        SeenReports(r.value.commands[n + k], ansi);
      }
      LaterStill(b.value.transcript, Run(silent, steps).value.transcript, r.value.transcript);
      if forall s :: s in more ==> !Detaches(s, id) {
        StaysAttached(silent, steps, more, id);
      }
    }
  }

  /** Command i was submitted and its record waits for that of an earlier one. */
  predicate Waits(h: Host, i: nat) {
    i in h.transcript.pending
  }

  /** What was complete, and what waited, when the journal was this long. */
  lemma WaitingIsBehindAGap(silent: bool, steps: seq<Step>, i: nat)
    ensures var r := Run(silent, steps);
            r.Some? && i < |r.value.commands| ==>
              && (Waits(r.value, i) <==> r.value.commands[i].worker == Done && |r.value.transcript.drained| <= i)
              && (Waits(r.value, i) <==>
                    r.value.commands[i].worker == Done && exists k :: 0 <= k < i && r.value.commands[k].worker != Done)
  {
    hide Run, Inv, JournalIsPrefix, Waits;
    RunKeepsInv(silent, steps);
    JournalIsExact(silent, steps);
    var r := Run(silent, steps);
    if r.Some? && i < |r.value.commands| {
      PendingIsDone(r.value, i);
      if r.value.commands[i].worker == Done {
        GapIsFirst(r.value, i);
      }
    }
  }

  lemma GapIsFirst(h: Host, i: nat)
    requires JournalIsPrefix(h) && i < |h.commands| && h.commands[i].worker == Done
    ensures |h.transcript.drained| <= i <==> exists k :: 0 <= k < i && h.commands[k].worker != Done
  {
    hide RecordOf;
    var n := |h.transcript.drained|;
    if n <= i {
      assert !Journalable(h.commands[n]);
    }
    assert forall k :: 0 <= k < n ==> Journalable(h.commands[k]);
  }

  lemma PendingIsDone(h: Host, i: nat)
    requires Inv(h) && i < |h.commands|
    ensures Waits(h, i) <==> h.commands[i].worker == Done && |h.transcript.drained| <= i
  {
    hide RecordOf, ThreadsOk, BufferOk, TurnsOk, ConsoleOk, LogOk, Linked;
    assert Ok(h.silent, h.commands[i]);
  }

  /** An entry completed before the attachment is sent to it if and only if it then waited
      behind an earlier command that was not complete, and has been sent since; to one still
      attached, if and only if it waited and has been journalled since. */
  lemma CompletedBeforeIsSentIfItWaited(silent: bool, before: seq<Step>, ansi: bool, more: seq<Step>, i: nat)
    ensures var b, r := Run(silent, before), Run(silent, before + [Attach(ansi)] + more);
            r.Some? && b.Some? && i < |b.value.commands| && b.value.commands[i].worker == Done ==>
              var n := |b.value.transcript.drained|;
              var id := |b.value.transcript.channels|;
              && id < |r.value.transcript.channels|
              && var sent := r.value.transcript.channels[id].sent;
                 && (n <= i < n + |sent| <==> Waits(b.value, i) && i < n + |sent|)
                 && (Waits(b.value, i) <==> exists k :: 0 <= k < i && b.value.commands[k].worker != Done)
                 && ((forall s :: s in more ==> !Detaches(s, id)) ==>
                       (n <= i < n + |sent| <==> Waits(b.value, i) && i < |r.value.transcript.drained|))
  {
    hide Run, Serves;
    AttachmentsSeeTheJournal(silent, before, ansi, more);
    WaitingIsBehindAGap(silent, before, i);
  }

  // ---------- after detaching ----------

  ghost predicate Detached(q: Queue, id: nat) {
    id < |q.channels| && (!q.channels[id].open || id !in Senders(q.subscribers))
  }

  lemma StepLeavesDetached(h: Host, s: Step, id: nat)
    requires JournalOk(h) && StepEnabled(h, s) && Detached(h.transcript, id)
    ensures var q := Apply(h, s).transcript; Detached(q, id) && q.channels[id].sent == h.transcript.channels[id].sent
  {
    hide ExactChannel, Reordered, RecordOf, Act, Enabled, Shows, Logged, Idle;
    var q := h.transcript;
    match s
    case Submit(i) => SubmitIsExact(q, i, RecordOf(h.commands[i]));
    case Attach(ansi) => SubscribeIsExact(q, ansi);
    case _ =>
  }

  lemma {:induction false} DetachedHearsNothing(silent: bool, steps: seq<Step>, more: seq<Step>, id: nat)
    requires var r := Run(silent, steps); r.Some? && Detached(r.value.transcript, id)
    ensures var r := Run(silent, steps + more);
            r.Some? ==>
              && id < |r.value.transcript.channels|
              && r.value.transcript.channels[id].sent == Run(silent, steps).value.transcript.channels[id].sent
              && Detached(r.value.transcript, id)
    decreases more
  {
    hide Apply, StepEnabled, Detached, JournalOk, CommandsOk, TurnsOk, ConsoleOk, LogOk;
    if more == [] {
      assert steps + more == steps;
    } else {
      var before, last := more[..|more| - 1], more[|more| - 1];
      assert (steps + more)[..|steps + more| - 1] == steps + before;
      DetachedHearsNothing(silent, steps, before, id);
      RunKeepsInv(silent, steps + before);
      var r := Run(silent, steps + before);
      if r.Some? && StepEnabled(r.value, last) {
        StepLeavesDetached(r.value, last, id);
      }
    }
    DetachedIsAChannel(silent, steps + more, id);
  }

  lemma DetachedIsAChannel(silent: bool, steps: seq<Step>, id: nat)
    ensures var r := Run(silent, steps); r.Some? && Detached(r.value.transcript, id) ==> id < |r.value.transcript.channels|
  {
  }

  /** Once the host has shut its subscriptions, or an attachment has hung up, no continuation of
      the run sends anything more: to anyone attached before, or to the one that hung up. */
  lemma NothingIsSentAfterwards(silent: bool, before: seq<Step>, last: Step, more: seq<Step>, id: nat)
    requires last == CloseSubscriptions || last == HangUp(id)
    ensures var b, r := Run(silent, before), Run(silent, before + [last] + more);
            r.Some? ==>
              && b.Some?
              && (id < |b.value.transcript.channels| ==>
                    && id < |r.value.transcript.channels|
                    && r.value.transcript.channels[id].sent == b.value.transcript.channels[id].sent)
  {
    hide Run;
    RunIsLater(silent, before + [last], more);
    RunIsLater(silent, before, [last]);
    var r := Run(silent, before + [last] + more);
    if r.Some? && id < |Run(silent, before).value.transcript.channels| {
      Detaching(silent, before, last, id);
      DetachedHearsNothing(silent, before + [last], more, id);
    }
  }

  lemma Detaching(silent: bool, before: seq<Step>, last: Step, id: nat)
    requires last == CloseSubscriptions || last == HangUp(id)
    requires Run(silent, before).Some? && Run(silent, before + [last]).Some?
    requires id < |Run(silent, before).value.transcript.channels|
    ensures var q := Run(silent, before + [last]).value.transcript;
            Detached(q, id) && q.channels[id].sent == Run(silent, before).value.transcript.channels[id].sent
  {
    assert (before + [last])[..|before|] == before;
    RunKeepsInv(silent, before);
    var h := Run(silent, before).value;
    DetachingStep(h, last, id);
    hide Inv, Apply, StepEnabled;
  }

  lemma DetachingStep(h: Host, last: Step, id: nat)
    requires last == CloseSubscriptions || last == HangUp(id)
    requires Linked(h.transcript) && StepEnabled(h, last) && id < |h.transcript.channels|
    ensures var q := Apply(h, last).transcript;
            Detached(q, id) && q.channels[id].sent == h.transcript.channels[id].sent
  {
    hide Linked;
  }
}
