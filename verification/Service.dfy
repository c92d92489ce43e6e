/** What a client of the host may rely on, over every trace of a connection (src/host.rs): when
    the connection ends, and what is written on it. */
module Service {
  import opened Bytes
  import opened Sessions

  // ---------- told from the trace alone ----------

  predicate AnsweredPing(a: HostAction) {
    a.HearLine? && a.line.Ping? && a.written
  }

  predicate RequestLine(a: HostAction) {
    a.HearLine? && a.line.Request?
  }

  /** A ping was answered since the last request, by the worker and not for the opening. */
  predicate Pinged(actions: seq<HostAction>) {
    exists j :: 0 <= j < |actions| && AnsweredPing(actions[j]) && forall k :: j < k < |actions| ==> !RequestLine(actions[k])
  }

  /** What ends a connection: the worker vanishes (its client or the host goes, a read fails);
      the first line is no ping; a pong, or the answer to a request that is not run, cannot be
      written; a request comes without a ping; the answer to a failed spawn cannot be written. */
  predicate Ends(before: seq<HostAction>, a: HostAction) {
    match a
    case Vanish => true
    case HearFirst(line, written) => !line.Ping? || !written
    case HearLine(Ping(_), written, _) => !written
    case HearLine(Request(_, kind), written, _) => !Pinged(before) || (kind != Runnable && !written)
    case AnswerFailure(written) => !written
    case _ => false
  }

  function LastRequest(actions: seq<HostAction>): Option<nat> {
    if actions == [] then None
    else if RequestLine(actions[|actions| - 1]) then Some(actions[|actions| - 1].line.tag)
    else LastRequest(actions[..|actions| - 1])
  }

  /** What is written at a step: a pong for the ping, a response for the request. */
  function Answers(before: seq<HostAction>, a: HostAction): seq<Reply> {
    match a
    case HearFirst(Ping(tag), true) => [Pong(tag)]
    case HearLine(Ping(tag), true, _) => [Pong(tag)]
    case HearLine(Request(tag, kind), true, _) => if kind != Runnable && Pinged(before) then [Response(tag)] else []
    case WriteResponse(true) => if LastRequest(before).Some? then [Response(LastRequest(before).value)] else []
    case AnswerFailure(true) => if LastRequest(before).Some? then [Response(LastRequest(before).value)] else []
    case _ => []
  }

  function AllAnswers(actions: seq<HostAction>): seq<Reply> {
    if actions == [] then []
    else AllAnswers(actions[..|actions| - 1]) + Answers(actions[..|actions| - 1], actions[|actions| - 1])
  }

  // ---------- and what the session does ----------

  lemma PingedOneMore(actions: seq<HostAction>, a: HostAction)
    ensures Pinged(actions + [a]) <==> AnsweredPing(a) || (Pinged(actions) && !RequestLine(a))
  {
    var more := actions + [a];
    assert more[|actions|] == a;
    assert forall k :: 0 <= k < |actions| ==> more[k] == actions[k];
    if Pinged(actions) && !RequestLine(a) {
      var j :| 0 <= j < |actions| && AnsweredPing(actions[j]) && forall k :: j < k < |actions| ==> !RequestLine(actions[k]);
      assert AnsweredPing(more[j]) && forall k :: j < k < |more| ==> !RequestLine(more[k]);
    }
    if AnsweredPing(a) {
      assert AnsweredPing(more[|actions|]) && |more| == |actions| + 1;
    }
  }

  predicate ForRequest(p: Phase, tag: Option<nat>) {
    match p
    case Watching(t) => tag == Some(t)
    case HandedBack(t) => tag == Some(t)
    case AnsweringFailure(t) => tag == Some(t)
    case Journalling(t) => tag == Some(t)
    case _ => true
  }

  predicate Switches(actions: seq<HostAction>) {
    actions != [] && actions[|actions| - 1].HearLine? && actions[|actions| - 1].line.AttachTo?
  }

  /** The phase says how the trace ended. */
  ghost predicate Tells(s: Session, actions: seq<HostAction>) {
    && (s.phase == Opening <==> actions == [])
    && (s.phase == Gone <==> actions != [] && Ends(actions[..|actions| - 1], actions[|actions| - 1]))
    && (s.phase == Attached <==> Switches(actions))
    && (s.phase.AtTop? ==> (s.phase.pinged <==> Pinged(actions)))
    && (Pinged(actions) ==> s.phase == AtTop(true) || s.phase == Gone || s.phase == Attached)
    && ForRequest(s.phase, LastRequest(actions))
  }

  lemma StepTells(s: Session, before: seq<HostAction>, a: HostAction)
    requires Tells(s, before) && HostEnabled(s, a)
    ensures Tells(HostStep(s, a), before + [a])
    ensures Replies(s, a) == Answers(before, a)
  {
    var more := before + [a];
    assert more[..|before|] == before && more[|before|] == a;
    PingedOneMore(before, a);
    hide Pinged;
  }

  lemma {:induction false} TracesAreTold(actions: seq<HostAction>)
    ensures var r := Serve(actions); r.Some? ==> Tells(r.value, actions)
  {
    if actions != [] {
      var before, last := actions[..|actions| - 1], actions[|actions| - 1];
      TracesAreTold(before);
      assert actions == before + [last];
      var r := Serve(before);
      hide Tells, HostStep, HostEnabled;
      if r.Some? && HostEnabled(r.value, last) {
        StepTells(r.value, before, last);
      }
    }
  }

  lemma {:induction false} PrefixIsServed(actions: seq<HostAction>, n: nat)
    requires n <= |actions| && Serve(actions).Some?
    ensures Serve(actions[..n]).Some?
    ensures n < |actions| ==> Serve(actions[..n]).value.phase != Gone
  {
    if n < |actions| {
      var before := actions[..|actions| - 1];
      assert before[..n] == actions[..n];
      PrefixIsServed(before, n);
      if n == |before| {
        assert actions[..n] == before;
      }
    } else {
      assert actions[..n] == actions;
    }
  }

  /** Over every trace: the connection has ended if and only if something in it ended it. */
  lemma ConnectionsEndForAReason(actions: seq<HostAction>)
    ensures var r := Serve(actions);
            r.Some? ==> (r.value.phase == Gone <==> exists k :: 0 <= k < |actions| && Ends(actions[..k], actions[k]))
  {
    hide HostStep, HostEnabled, Ends;
    TracesAreTold(actions);
    var r := Serve(actions);
    if r.Some? {
      if k :| 0 <= k < |actions| && Ends(actions[..k], actions[k]) {
        PrefixIsServed(actions, k + 1);
        TracesAreTold(actions[..k + 1]);
        assert actions[..k + 1][..k] == actions[..k];
      }
    }
  }

  /** What the session writes along a trace. */
  function Written(actions: seq<HostAction>): seq<Reply> {
    if actions == [] then []
    else
      var before, last := actions[..|actions| - 1], actions[|actions| - 1];
      var r := Serve(before);
      Written(before) + if r.Some? && HostEnabled(r.value, last) then Replies(r.value, last) else []
  }

  /** Over every trace exactly these are written: a pong for each ping the worker takes, and one
      response for each request it processes, whenever the write succeeds. */
  lemma {:induction false} RepliesAreExact(actions: seq<HostAction>)
    ensures Serve(actions).Some? ==> Written(actions) == AllAnswers(actions)
  {
    if actions != [] && Serve(actions).Some? {
      var before, last := actions[..|actions| - 1], actions[|actions| - 1];
      RepliesAreExact(before);
      TracesAreTold(before);
      hide Tells, Answers, Replies;
      StepTells(Serve(before).value, before, last);
    }
  }
}
