/**
 * One socket's outbound queue (server.go): any number of senders, one writer, and whoever closes it, in any
 * interleaving. A step is one channel operation or one write. Where a select has several cases ready, any of them may
 * be taken.
 */
module Sinks {
  import opened Options

  type Frame = string

  datatype Out = Text(frame: Frame) | Ping | Closing

  /** Where the writer is. Flushing counts what the flush has taken so far. */
  datatype Writer =
    | Idle
    | Writing(frame: Frame)
    | Flushing(taken: nat)
    | FlushWriting(taken: nat, frame: Frame)
    | Parting
    | Failing
    | Stopped

  /** Where a Send is: past its first question with a frame to offer, or about to close a socket that fell behind. */
  datatype Sender = Offering(frame: Frame) | Closer

  /** accepted is every frame a Send answered nil for, early how many of them there were when done closed. */
  datatype Sink = Sink(
    cap: nat,
    queue: seq<Frame>,
    done: bool,
    writer: Writer,
    senders: map<nat, Sender>,
    wire: seq<Out>,
    failed: bool,
    accepted: seq<Frame>,
    early: nat)

  function Opened(cap: nat): Sink {
    Sink(cap, [], false, Idle, map[], [], false, [], 0)
  }

  datatype Step =
    | Begin(s: nat, frame: Frame)
    | Queue(s: nat)
    | SeeClosed(s: nat)
    | FallBehind(s: nat)
    | CloseBehind(s: nat)
    | Terminate
    | Take
    | Write(ok: bool)
    | KeepAlive(ok: bool)
    | Fail
    | SeeDone
    | FlushTake
    | FlushWrite(ok: bool)
    | FlushEnd
    | Part(ok: bool)

  predicate Offers(k: Sink, s: nat) {
    s in k.senders && k.senders[s].Offering?
  }

  predicate Enabled(k: Sink, a: Step) {
    match a
    case Begin(s, _) => s !in k.senders
    case Queue(s) => Offers(k, s) && |k.queue| < k.cap
    case SeeClosed(s) => Offers(k, s) && k.done
    case FallBehind(s) => Offers(k, s) && |k.queue| >= k.cap && !k.done
    case CloseBehind(s) => s in k.senders && k.senders[s].Closer?
    case Terminate => true
    case Take => k.writer.Idle? && k.queue != []
    case Write(_) => k.writer.Writing?
    case KeepAlive(_) => k.writer.Idle?
    case Fail => k.writer.Failing?
    case SeeDone => k.writer.Idle? && k.done
    case FlushTake => k.writer.Flushing? && k.writer.taken < k.cap && k.queue != []
    case FlushWrite(_) => k.writer.FlushWriting?
    case FlushEnd => k.writer.Flushing? && (k.writer.taken >= k.cap || k.queue == [])
    case Part(_) => k.writer.Parting?
  }

  /** done closes once. */
  function Close(k: Sink): Sink {
    if k.done then k else k.(done := true, early := |k.accepted|)
  }

  function Apply(k: Sink, a: Step): Sink
    requires Enabled(k, a)
  {
    match a
    case Begin(s, frame) => if k.done then k else k.(senders := k.senders[s := Offering(frame)])
    case Queue(s) =>
      var frame := k.senders[s].frame;
      k.(senders := k.senders - {s}, queue := k.queue + [frame], accepted := k.accepted + [frame])
    case SeeClosed(s) => k.(senders := k.senders - {s})
    case FallBehind(s) => k.(senders := k.senders[s := Closer])
    case CloseBehind(s) => Close(k).(senders := k.senders - {s})
    case Terminate => Close(k)
    case Take => k.(writer := Writing(k.queue[0]), queue := k.queue[1..])
    case Write(ok) =>
      if ok then k.(writer := Idle, wire := k.wire + [Text(k.writer.frame)]) else k.(writer := Failing, failed := true)
    case KeepAlive(ok) => if ok then k.(wire := k.wire + [Ping]) else k.(writer := Failing, failed := true)
    case Fail => Close(k).(writer := Stopped)
    case SeeDone => k.(writer := Flushing(0))
    case FlushTake => k.(writer := FlushWriting(k.writer.taken, k.queue[0]), queue := k.queue[1..])
    case FlushWrite(ok) =>
      if ok then k.(writer := Flushing(k.writer.taken + 1), wire := k.wire + [Text(k.writer.frame)])
      else k.(writer := Parting, failed := true)
    case FlushEnd => k.(writer := Parting)
    case Part(ok) => if ok then k.(writer := Stopped, wire := k.wire + [Closing])
      else k.(writer := Stopped, failed := true)
  }

  ghost predicate Run(k: Sink, steps: seq<Step>, end: Sink)
    decreases |steps|
  {
    if steps == [] then end == k else Enabled(k, steps[0]) && Run(Apply(k, steps[0]), steps[1..], end)
  }

  /** The frames that reached the wire, in order. */
  function Texts(wire: seq<Out>): seq<Frame> {
    if wire == [] then []
    else Texts(wire[..|wire| - 1]) + if wire[|wire| - 1].Text? then [wire[|wire| - 1].frame] else []
  }

  lemma TextsMore(wire: seq<Out>, o: Out)
    ensures Texts(wire + [o]) == Texts(wire) + if o.Text? then [o.frame] else []
  {
    assert (wire + [o])[..|wire|] == wire;
  }

  function InHand(w: Writer): seq<Frame> {
    if w.Writing? || w.FlushWriting? then [w.frame] else []
  }

  // ----- What every step keeps -----

  /** While no write has failed, the wire, the writer's hand and the queue are what was accepted, in order. */
  predicate Ordered(k: Sink) {
    && Texts(k.wire) <= k.accepted
    && (!k.failed ==> k.accepted == Texts(k.wire) + InHand(k.writer) + k.queue)
  }

  predicate Room(k: Sink) {
    |k.queue| <= k.cap && k.early <= |k.accepted|
  }

  /** The flush owes the frames accepted before the close, and has turns enough left for them. */
  predicate Owing(k: Sink) {
    && (k.writer.Flushing? || k.writer.FlushWriting? || k.writer.Parting? ==> k.done)
    && (!k.failed && (k.writer.Flushing? || k.writer.FlushWriting?) ==>
          k.writer.taken <= k.cap && k.early <= |Texts(k.wire)| + (k.cap - k.writer.taken))
    && (k.writer.FlushWriting? ==> k.writer.taken < k.cap)
    && (!k.failed && (k.writer.Parting? || k.writer.Stopped?) ==> k.early <= |Texts(k.wire)|)
  }

  /** Nothing follows the close frame, and it is only written as the writer stops. */
  predicate Parted(k: Sink) {
    && (forall i | 0 <= i < |k.wire| && k.wire[i] == Closing :: i == |k.wire| - 1 && k.writer.Stopped?)
    && (k.writer.Stopped? && !k.failed ==> k.done && k.wire != [] && k.wire[|k.wire| - 1] == Closing)
    && (k.writer.Parting? || k.writer.Stopped? ==> k.done)
    && (k.writer.Failing? ==> k.failed)
    && (k.failed ==> k.writer.Failing? || k.writer.Parting? || k.writer.Stopped?)
  }

  ghost predicate Invariant(k: Sink) {
    Ordered(k) && Room(k) && Owing(k) && Parted(k)
  }

  predicate Sends(a: Step) {
    a.Begin? || a.Queue? || a.SeeClosed? || a.FallBehind? || a.CloseBehind? || a.Terminate?
  }

  /**
   * Senders and closers leave the wire and the writer alone; they only ever add to the queue, and that only with room.
   */
  lemma SendsOnly(k: Sink, a: Step)
    requires Enabled(k, a) && Sends(a)
    ensures var end := Apply(k, a);
            && end.wire == k.wire && end.writer == k.writer && end.failed == k.failed
            && end.cap == k.cap
            && (k.done ==> end.done && end.early == k.early)
            && (!k.done && end.done ==> end.early == |k.accepted|)
            && (!end.done ==> end.early == k.early)
            && (if a.Queue? then end.queue == k.queue + [k.senders[a.s].frame]
               && end.accepted == k.accepted + [k.senders[a.s].frame]
                else end.queue == k.queue && end.accepted == k.accepted)
  {
  }

  lemma SendKeeps(k: Sink, a: Step)
    requires Invariant(k) && Enabled(k, a) && Sends(a)
    ensures Invariant(Apply(k, a))
  {
    SendsOnly(k, a);
    var end := Apply(k, a);
    assert a.Queue? ==> |k.queue| < k.cap;
    hide Texts, Apply, Enabled, Sends;
    if a.Queue? {
      var frame := end.queue[|k.queue|];
      assert k.accepted + [frame] == end.accepted;
      assert Texts(k.wire) + InHand(k.writer) + (k.queue + [frame])
        == Texts(k.wire) + InHand(k.writer) + k.queue + [frame];
    }
  }

  /** The writer takes the next frame in hand. */
  lemma TakeKeeps(k: Sink, a: Step)
    requires Invariant(k) && Enabled(k, a) && (a.Take? || a.FlushTake?)
    ensures Invariant(Apply(k, a))
  {
    hide Texts;
    assert k.queue == [k.queue[0]] + k.queue[1..];
    assert Texts(k.wire) + [k.queue[0]] + k.queue[1..] == Texts(k.wire) + ([k.queue[0]] + k.queue[1..]);
    assert Texts(k.wire) + [] == Texts(k.wire);
  }

  lemma WriteKeeps(k: Sink, a: Step)
    requires Invariant(k) && Enabled(k, a) && (a.Write? || a.FlushWrite?)
    ensures Invariant(Apply(k, a))
  {
    TextsMore(k.wire, Text(k.writer.frame));
    hide Texts;
    var frame := k.writer.frame;
    assert k.accepted == Texts(k.wire) + [frame] + k.queue;
    assert Texts(k.wire) + [frame] + [] + k.queue == Texts(k.wire) + [frame] + k.queue;
  }

  lemma TurnKeeps(k: Sink, a: Step)
    requires Invariant(k) && Enabled(k, a) && (a.KeepAlive? || a.Fail? || a.SeeDone? || a.FlushEnd? || a.Part?)
    ensures Invariant(Apply(k, a))
  {
    TextsMore(k.wire, Ping);
    TextsMore(k.wire, Closing);
    hide Texts;
  }

  lemma StepKeeps(k: Sink, a: Step)
    requires Invariant(k) && Enabled(k, a)
    ensures Invariant(Apply(k, a)) && Apply(k, a).cap == k.cap
  {
    hide Invariant;
    if Sends(a) { SendKeeps(k, a); }
    else if a.Take? || a.FlushTake? { TakeKeeps(k, a); }
    else if a.Write? || a.FlushWrite? { WriteKeeps(k, a); }
    else { TurnKeeps(k, a); }
  }

  lemma {:induction false} RunKeeps(k: Sink, steps: seq<Step>, end: Sink)
    requires Invariant(k) && Run(k, steps, end)
    ensures Invariant(end) && end.cap == k.cap
    decreases |steps|
  {
    hide Invariant, Apply, Enabled;
    if steps != [] {
      StepKeeps(k, steps[0]);
      RunKeeps(Apply(k, steps[0]), steps[1..], end);
    }
  }

  lemma {:induction false} RunAppend(k: Sink, a: seq<Step>, mid: Sink, b: seq<Step>, end: Sink)
    requires Run(k, a, mid) && Run(mid, b, end)
    ensures Run(k, a + b, end)
    decreases |a|
  {
    hide Apply, Enabled;
    if a == [] {
      assert a + b == b;
    } else {
      assert (a + b)[0] == a[0] && (a + b)[1..] == a[1..] + b;
      RunAppend(Apply(k, a[0]), a[1..], mid, b, end);
    }
  }

  lemma OpenedHolds(cap: nat)
    ensures Invariant(Opened(cap))
  {
  }

  /** Frames reach the wire in the order they were accepted, each once, whatever fails. */
  lemma InOrder(cap: nat, steps: seq<Step>, k: Sink)
    requires Run(Opened(cap), steps, k)
    ensures Texts(k.wire) <= k.accepted
    ensures !k.failed ==> k.accepted == Texts(k.wire) + InHand(k.writer) + k.queue
    ensures |k.queue| <= cap
  {
    OpenedHolds(cap);
    RunKeeps(Opened(cap), steps, k);
  }

  lemma {:induction false} EarlyStays(k: Sink, steps: seq<Step>, end: Sink)
    requires k.done && Run(k, steps, end)
    ensures end.done && end.early == k.early && k.accepted <= end.accepted
    decreases |steps|
  {
    if steps != [] {
      var next := Apply(k, steps[0]);
      assert next.done && next.early == k.early && k.accepted <= next.accepted;
      hide Apply, Enabled;
      EarlyStays(next, steps[1..], end);
    }
  }

  /** The step that closes done, wherever it is in a run. */
  predicate Closes(k: Sink, a: Step) {
    Enabled(k, a) && !k.done && Apply(k, a).done
  }

  /**
   * Every frame accepted before done closed is on the wire, in acceptance order and ahead of the one close frame, once
   * the writer has stopped, if no write failed: over every interleaving before the close and after it. What is left in
   * the queue is the end of what was accepted, and all of it was accepted after the close.
   */
  lemma FlushedBeforeClose(cap: nat, before: seq<Step>, mid: Sink, a: Step, after: seq<Step>, end: Sink)
    returns (front: seq<Out>)
    requires Run(Opened(cap), before, mid) && Closes(mid, a) && Run(Apply(mid, a), after, end)
    requires end.writer.Stopped? && !end.failed
    ensures end.wire == front + [Closing] && Closing !in front
    ensures mid.accepted <= Texts(front) && end.accepted == Texts(front) + end.queue
  {
    OpenedHolds(cap);
    RunKeeps(Opened(cap), before, mid);
    StepKeeps(mid, a);
    RunKeeps(Apply(mid, a), after, end);
    ClosedEarly(mid, a);
    EarlyStays(Apply(mid, a), after, end);
    hide Apply, Enabled, Run, Closes, Room, Owing;
    assert end.early <= |Texts(end.wire)| by { StoppedOwes(end); }
    front := end.wire[..|end.wire| - 1];
    assert end.wire == front + [Closing];
    TextsMore(front, Closing);
    assert end.accepted == Texts(end.wire) + [] + end.queue;
  }

  lemma ClosedEarly(k: Sink, a: Step)
    requires Closes(k, a)
    ensures Apply(k, a).early == |k.accepted| && Apply(k, a).accepted == k.accepted
  {
  }

  lemma StoppedOwes(k: Sink)
    requires Invariant(k) && k.writer.Stopped? && !k.failed
    ensures k.early <= |Texts(k.wire)|
  {
  }

  predicate OnOffer(late: seq<Frame>, senders: map<nat, Sender>) {
    forall f | f in late :: Sender.Offering(f) in senders.Values
  }

  predicate Fewer(less: map<nat, Sender>, senders: map<nat, Sender>) {
    forall s | s in less :: s in senders && less[s] == senders[s]
  }

  lemma StillOnOffer(late: seq<Frame>, less: map<nat, Sender>, senders: map<nat, Sender>)
    requires OnOffer(late, less) && Fewer(less, senders)
    ensures OnOffer(late, senders)
  {
    forall f | f in late ensures Sender.Offering(f) in senders.Values {
      var s :| s in less && less[s] == Sender.Offering(f);
      assert senders[s] == Sender.Offering(f);
    }
  }

  lemma AfterClose(k: Sink, a: Step) returns (late: seq<Frame>)
    requires k.done && Enabled(k, a)
    ensures var next := Apply(k, a);
            && next.done && next.accepted == k.accepted + late
            && OnOffer(late, k.senders) && Fewer(next.senders, k.senders)
            && |late| + |next.senders| <= |k.senders|
  {
    late := if a.Queue? then [k.senders[a.s].frame] else [];
    if a.Queue? || a.SeeClosed? || a.CloseBehind? {
      assert k.senders[a.s] in k.senders.Values;
      assert k.senders == (k.senders - {a.s})[a.s := k.senders[a.s]];
    }
  }

  /** A Send begun after the close queues nothing: all that is still accepted was on offer when it closed, once each. */
  lemma {:induction false} LateSendsRefused(k: Sink, steps: seq<Step>, end: Sink) returns (late: seq<Frame>)
    requires k.done && Run(k, steps, end)
    ensures end.accepted == k.accepted + late
    ensures OnOffer(late, k.senders) && Fewer(end.senders, k.senders)
    ensures |late| + |end.senders| <= |k.senders|
    decreases |steps|
  {
    hide Apply, Enabled, OnOffer, Fewer;
    if steps == [] {
      late := [];
      NobodyLate(k.senders);
    } else {
      var first := AfterClose(k, steps[0]);
      var next := Apply(k, steps[0]);
      var rest := LateSendsRefused(next, steps[1..], end);
      StillOnOffer(rest, next.senders, k.senders);
      FewerStill(end.senders, next.senders, k.senders);
      BothOnOffer(first, rest, k.senders);
      late := first + rest;
    }
  }

  lemma NobodyLate(senders: map<nat, Sender>)
    ensures OnOffer([], senders) && Fewer(senders, senders)
  {
  }

  lemma FewerStill(a: map<nat, Sender>, b: map<nat, Sender>, c: map<nat, Sender>)
    requires Fewer(a, b) && Fewer(b, c)
    ensures Fewer(a, c)
  {
  }

  lemma BothOnOffer(a: seq<Frame>, b: seq<Frame>, senders: map<nat, Sender>)
    requires OnOffer(a, senders) && OnOffer(b, senders)
    ensures OnOffer(a + b, senders)
  {
  }

  // ----- The flush -----

  predicate Leaving(w: Writer) {
    w.Flushing? || w.FlushWriting? || w.Parting? || w.Stopped?
  }

  function Turns(k: Sink): nat {
    if k.writer.Flushing? || k.writer.FlushWriting? then k.writer.taken else k.cap
  }

  predicate FlushedFrom(k: Sink, from: nat) {
    && Leaving(k.writer) && |Texts(k.wire)| <= from + Turns(k) && Turns(k) <= k.cap
    && (k.writer.FlushWriting? ==> k.writer.taken < k.cap)
  }

  lemma FlushTurn(k: Sink, a: Step, from: nat)
    requires Enabled(k, a) && FlushedFrom(k, from) && (a.FlushTake? || a.FlushWrite? || a.FlushEnd?)
    ensures FlushedFrom(Apply(k, a), from)
  {
    if a.FlushWrite? { TextsMore(k.wire, Text(k.writer.frame)); }
    hide Texts;
  }

  lemma FlushParts(k: Sink, ok: bool, from: nat)
    requires Enabled(k, Part(ok)) && FlushedFrom(k, from)
    ensures FlushedFrom(Apply(k, Part(ok)), from)
  {
    TextsMore(k.wire, Closing);
    hide Texts;
  }

  lemma FlushStep(k: Sink, a: Step, from: nat)
    requires Enabled(k, a) && FlushedFrom(k, from)
    ensures FlushedFrom(Apply(k, a), from) && Apply(k, a).cap == k.cap
  {
    assert Leaving(k.writer);
    if a.FlushTake? || a.FlushWrite? || a.FlushEnd? {
      FlushTurn(k, a, from);
    } else if a.Part? {
      FlushParts(k, a.ok, from);
    } else {
      assert Sends(a);
      SendsOnly(k, a);
      hide Texts, Apply;
    }
  }

  lemma {:induction false} FlushBounded(k: Sink, steps: seq<Step>, end: Sink, from: nat)
    requires Run(k, steps, end) && FlushedFrom(k, from)
    ensures |Texts(end.wire)| <= from + k.cap
    decreases |steps|
  {
    if steps != [] {
      FlushStep(k, steps[0], from);
      hide Apply, Enabled, Texts, FlushedFrom;
      FlushBounded(Apply(k, steps[0]), steps[1..], end, from);
    }
  }

  /**
   * From the moment the writer sees the close it writes no more frames than the queue can hold, however many are
   * offered.
   */
  lemma FlushTakesNoMore(k: Sink, steps: seq<Step>, end: Sink)
    requires Enabled(k, SeeDone) && Run(Apply(k, SeeDone), steps, end)
    ensures |Texts(end.wire)| <= |Texts(k.wire)| + k.cap
  {
    FlushBounded(Apply(k, SeeDone), steps, end, |Texts(k.wire)|);
  }

  // ----- The calls themselves, when nothing comes in between -----

  datatype SendTrouble = SocketClosed | FellBehind

  /** A socket's queue. What a call does alone is one of the runs above. */
  class Socket {
    const cap: nat
    var out: seq<Frame>
    var done: bool
    var wire: seq<Out>
    ghost var failed: bool
    ghost var accepted: seq<Frame>
    ghost var early: nat

    ghost function Seen(w: Writer): Sink
      reads this
    {
      Sink(cap, out, done, w, map[], wire, failed, accepted, early)
    }

    constructor (cap: nat)
      ensures this.cap == cap && Seen(Idle) == Opened(cap)
    {
      this.cap := cap;
      out, done, wire, failed, accepted, early := [], false, [], false, [], 0;
    }

    method Terminate(ghost w: Writer) returns (ghost steps: seq<Step>)
      modifies this
      ensures done && out == old(out) && wire == old(wire)
      ensures Run(old(Seen(w)), steps, Seen(w))
    {
      if !done {
        early := |accepted|;
      }
      done := true;
      steps := [Step.Terminate];
      assert steps[1..] == [];
    }

    method Send(message: Frame, ghost s: nat, ghost w: Writer)
      returns (trouble: Option<SendTrouble>, ghost steps: seq<Step>)
      modifies this
      ensures trouble == if old(done) then Some(SocketClosed) else if |old(out)| >= cap then Some(FellBehind) else None
      ensures out == if trouble == None then old(out) + [message] else old(out)
      ensures done == (old(done) || trouble == Some(FellBehind)) && wire == old(wire)
      ensures Run(old(Seen(w)), steps, Seen(w))
    {
      if done {
        steps := [Begin(s, message)];
        assert steps[1..] == [];
        return Some(SocketClosed), steps;
      }
      ghost var begun := Seen(w).(senders := map[s := Offering(message)]);
      assert begun.senders - {s} == map[] && begun.senders[s := Closer] - {s} == map[];
      if |out| < cap {
        out := out + [message];
        accepted := accepted + [message];
        assert Run(begun, [Queue(s)], Seen(w)) by { OneStep(begun, Queue(s)); }
        steps := [Begin(s, message), Queue(s)];
        assert steps[1..] == [Queue(s)];
        return None, steps;
      }
      done := true;
      early := |accepted|;
      ghost var behind := begun.(senders := map[s := Closer]);
      OneStep(behind, CloseBehind(s));
      assert [FallBehind(s), CloseBehind(s)][1..] == [CloseBehind(s)];
      assert Run(begun, [FallBehind(s), CloseBehind(s)], Seen(w));
      steps := [Begin(s, message), FallBehind(s), CloseBehind(s)];
      assert steps[1..] == [FallBehind(s), CloseBehind(s)];
      return Some(FellBehind), steps;
    }

    /** One turn of the flush. */
    method FlushOne(ok: bool, ghost taken: nat) returns (ghost steps: seq<Step>)
      requires out != [] && taken < cap
      modifies this
      ensures done == old(done) && accepted == old(accepted) && early == old(early) && failed == (old(failed) || !ok)
      ensures out == old(out)[1..] && wire == if ok then old(wire) + [Text(old(out)[0])] else old(wire)
      ensures Run(old(Seen(Flushing(taken))), steps, Seen(if ok then Flushing(taken + 1) else Parting))
    {
      ghost var before := Seen(Flushing(taken));
      ghost var mid := before.(writer := FlushWriting(taken, out[0]), queue := out[1..]);
      TwoSteps(before, FlushTake, mid, FlushWrite(ok));
      steps := [FlushTake, FlushWrite(ok)];
      var message := out[0];
      out := out[1..];
      if ok {
        wire := wire + [Text(message)];
      } else {
        failed := true;
      }
      hide Run;
    }

    /** flush: what is queued, at most cap frames of it, until a write fails; writes answers each write in turn. */
    method Flush(writes: nat -> bool) returns (ghost steps: seq<Step>)
      modifies this
      ensures done == old(done) && accepted == old(accepted) && old(wire) <= wire
      ensures |wire| - |old(wire)| <= cap
      ensures Run(old(Seen(Flushing(0))), steps, Seen(Parting))
      ensures !failed && |old(out)| <= cap ==> out == [] && Texts(wire) == Texts(old(wire)) + old(out)
    {
      hide Apply, Enabled, Texts;
      steps := [];
      ghost var start := Seen(Flushing(0));
      var i := 0;
      while i < cap
        invariant 0 <= i <= cap && done == old(done) && accepted == old(accepted) && old(wire) <= wire
        invariant |wire| == |old(wire)| + i && |old(out)| == |out| + i
        invariant Texts(wire) + out == Texts(old(wire)) + old(out)
        invariant Run(start, steps, Seen(Flushing(i)))
      {
        if out == [] { break; }
        ghost var before := Seen(Flushing(i));
        ghost var turn := FlushOne(writes(i), i);
        RunAppend(start, steps, before, turn, Seen(if writes(i) then Flushing(i + 1) else Parting));
        steps := steps + turn;
        if !writes(i) { return; }
        TextsMove(before.wire, before.queue);
        i := i + 1;
      }
      EndFlush(Seen(Flushing(i)));
      RunAppend(start, steps, Seen(Flushing(i)), [FlushEnd], Seen(Parting));
      steps := steps + [FlushEnd];
    }
  }

  lemma TextsMove(wire: seq<Out>, queue: seq<Frame>)
    requires queue != []
    ensures Texts(wire + [Text(queue[0])]) + queue[1..] == Texts(wire) + queue
  {
    TextsMore(wire, Text(queue[0]));
    assert queue == [queue[0]] + queue[1..];
    assert Texts(wire) + [queue[0]] + queue[1..] == Texts(wire) + ([queue[0]] + queue[1..]);
  }

  lemma EndFlush(k: Sink)
    requires Enabled(k, FlushEnd)
    ensures Run(k, [FlushEnd], k.(writer := Parting))
  {
    OneStep(k, FlushEnd);
  }

  lemma OneStep(k: Sink, a: Step)
    requires Enabled(k, a)
    ensures Run(k, [a], Apply(k, a))
  {
  }

  lemma TwoSteps(k: Sink, a: Step, mid: Sink, b: Step)
    requires Enabled(k, a) && Apply(k, a) == mid && Enabled(mid, b)
    ensures Run(k, [a, b], Apply(mid, b))
  {
    OneStep(mid, b);
    assert [a, b][1..] == [b];
  }

  // ----- The writer gets there -----

  predicate TurnsFit(k: Sink) {
    k.writer.Flushing? || k.writer.FlushWriting? ==> k.writer.taken <= k.cap
  }

  /** How many steps of its own the writer has left at most once it has seen the close, or can see it. */
  function Left(k: Sink): nat
    requires TurnsFit(k)
  {
    match k.writer
    case Idle => 2 * k.cap + 3
    case Writing(_) => 2 * k.cap + 4
    case Flushing(taken) => 2 * (k.cap - taken) + 2
    case FlushWriting(taken, _) => 2 * (k.cap - taken) + 1
    case Parting | Failing => 1
    case Stopped => 0
  }

  /** What the writer does next on a closed socket while nothing fails. */
  function NextTurn(k: Sink): Step
    requires !k.writer.Stopped?
  {
    match k.writer
    case Idle => SeeDone
    case Writing(_) => Write(true)
    case Flushing(taken) => if taken < k.cap && k.queue != [] then FlushTake else FlushEnd
    case FlushWriting(_, _) => FlushWrite(true)
    case Parting => Part(true)
    case Failing => Fail
  }

  lemma TurnNears(k: Sink)
    requires Invariant(k) && k.done && !k.writer.Stopped?
    ensures Enabled(k, NextTurn(k)) && TurnsFit(k) && TurnsFit(Apply(k, NextTurn(k)))
    ensures var next := Apply(k, NextTurn(k));
            && next.done && next.failed == k.failed && next.accepted == k.accepted && next.early == k.early
            && Left(next) < Left(k)
  {
    hide Ordered, Room;
  }

  lemma {:induction false} StopsFrom(k: Sink) returns (steps: seq<Step>, end: Sink)
    requires Invariant(k) && k.done && TurnsFit(k)
    ensures Run(k, steps, end) && end.writer.Stopped? && end.failed == k.failed && end.accepted == k.accepted
    ensures !k.failed ==> end.wire != [] && end.wire[|end.wire| - 1] == Closing && k.early <= |Texts(end.wire)|
    decreases Left(k)
  {
    if k.writer.Stopped? {
      steps, end := [], k;
    } else {
      TurnNears(k);
      StepKeeps(k, NextTurn(k));
      hide Invariant, Apply, Enabled, NextTurn, Left;
      var rest;
      rest, end := StopsFrom(Apply(k, NextTurn(k)));
      steps := [NextTurn(k)] + rest;
      assert steps[1..] == rest;
    }
  }

  /**
   * From any reachable state with done closed the writer, left to itself and with nothing failing, stops; the last
   * thing on the wire is then the close, with everything accepted before it ahead of it.
   */
  lemma WriterStops(cap: nat, before: seq<Step>, k: Sink) returns (steps: seq<Step>, end: Sink)
    requires Run(Opened(cap), before, k) && k.done
    ensures Run(k, steps, end) && end.writer.Stopped? && end.failed == k.failed && end.accepted == k.accepted
    ensures !k.failed ==> end.wire != [] && end.wire[|end.wire| - 1] == Closing && k.early <= |Texts(end.wire)|
  {
    OpenedHolds(cap);
    RunKeeps(Opened(cap), before, k);
    hide Run, Enabled, Apply;
    steps, end := StopsFrom(k);
  }

  lemma {:induction false} CatchesUpFrom(k: Sink) returns (steps: seq<Step>, end: Sink)
    requires Invariant(k) && !k.failed && (k.writer.Idle? || k.writer.Writing?)
    ensures Run(k, steps, end) && end.accepted == k.accepted && end.done == k.done
    ensures Texts(end.wire) == k.accepted
    decreases 2 * |k.queue| + if k.writer.Writing? then 1 else 0
  {
    if k.writer.Idle? && k.queue == [] {
      steps, end := [], k;
      assert Texts(k.wire) + [] + [] == Texts(k.wire);
    } else {
      var a := if k.writer.Idle? then Take else Write(true);
      StepKeeps(k, a);
      var next := Apply(k, a);
      assert next.accepted == k.accepted && next.done == k.done && !next.failed;
      hide Invariant;
      var rest;
      rest, end := CatchesUpFrom(next);
      hide Apply, Enabled, Texts;
      steps := [a] + rest;
      assert steps[1..] == rest;
    }
  }

  /** And while it is neither flushing nor failing, all that was accepted reaches the wire. */
  lemma WriterCatchesUp(cap: nat, before: seq<Step>, k: Sink) returns (steps: seq<Step>, end: Sink)
    requires Run(Opened(cap), before, k) && (k.writer.Idle? || k.writer.Writing?)
    ensures Run(k, steps, end) && end.accepted == k.accepted && Texts(end.wire) == k.accepted
  {
    OpenedHolds(cap);
    RunKeeps(Opened(cap), before, k);
    hide Run, Enabled, Apply, Texts;
    steps, end := CatchesUpFrom(k);
  }
}
