/**
A guest process's two output readers, which share one atomic byte budget, and its supervisor.

Each reader's loop is cut at its awaits and atomic operations: read, charge the counter, compare with
the maximum, send. Any interleaving is a sequence of actions. How much a read returns, when a stream
ends and whether a send succeeds is up to the action.
*/
module OutputBudget {
  import opened Core

  const BUFFER: nat := 16 * 1024

  type Byte = bv8

  datatype Stream = Stdout | Stderr

  datatype Event = Output(stream: Stream, data: seq<Byte>) | Exit(exceeded: bool) | Failure

  datatype Pc =
    | Reading
    | Holding(chunk: seq<Byte>)
    | Charged(chunk: seq<Byte>, previous: nat)
    | Sending(data: seq<Byte>, last: bool)
    | Joined

  /** `read` is everything this reader ever read. */
  datatype Reader = Reader(pc: Pc, read: seq<Byte>)

  datatype Supervisor = Waiting | WaitFailed | Exited

  /** `lost` counts the bytes of failed sends. */
  datatype State = State(
    out: Reader, err: Reader, used: nat, limitHit: bool, lost: nat, events: seq<Event>, supervisor: Supervisor)
  {
    function Of(stream: Stream): Reader { if stream.Stdout? then out else err }

    function With(stream: Stream, reader: Reader): State {
      if stream.Stdout? then this.(out := reader) else this.(err := reader)
    }
  }

  const INITIAL := State(Reader(Reading, []), Reader(Reading, []), 0, false, 0, [], Waiting)

  datatype Action =
    | Receive(stream: Stream, bytes: seq<Byte>)
    | EndOfStream(stream: Stream)
    | Charge(stream: Stream)
    | Compare(stream: Stream)
    | Send(stream: Stream, delivered: bool)
    | FailWait
    | Finish

  /** One atomic step; an action that is not enabled changes nothing. */
  function Step(s: State, maximum: nat, action: Action): State {
    match action
    case Receive(stream, bytes) =>
      var r := s.Of(stream);
      if !r.pc.Reading? || |bytes| == 0 || |bytes| > BUFFER then s else
      s.With(stream, Reader(Holding(bytes), r.read + bytes))
    case EndOfStream(stream) =>
      if !s.Of(stream).pc.Reading? then s else s.With(stream, s.Of(stream).(pc := Joined))
    case Charge(stream) =>
      var pc := s.Of(stream).pc;
      if !pc.Holding? then s else
      s.With(stream, s.Of(stream).(pc := Charged(pc.chunk, s.used))).(used := s.used + |pc.chunk|)
    case Compare(stream) =>
      var pc := s.Of(stream).pc;
      if !pc.Charged? then s
      else if pc.previous >= maximum then
        s.With(stream, s.Of(stream).(pc := Joined)).(limitHit := true)
      else
        var allowed := Min(maximum - pc.previous, |pc.chunk|);
        var over := allowed < |pc.chunk|;
        s.With(stream, s.Of(stream).(pc := Sending(pc.chunk[..allowed], over))).(limitHit := s.limitHit || over)
    case Send(stream, delivered) =>
      var pc := s.Of(stream).pc;
      if !pc.Sending? then s
      else if !delivered then
        s.With(stream, s.Of(stream).(pc := Joined)).(lost := s.lost + |pc.data|)
      else
        s.With(stream, s.Of(stream).(pc := if pc.last then Joined else Reading))
         .(events := s.events + [Output(stream, pc.data)])
    case FailWait =>
      if !s.supervisor.Waiting? then s else s.(supervisor := WaitFailed, events := s.events + [Failure])
    case Finish =>
      if !s.supervisor.Waiting? || !s.out.pc.Joined? || !s.err.pc.Joined? then s
      else s.(supervisor := Exited, events := s.events + [Exit(s.limitHit)])
  }

  function Run(maximum: nat, actions: seq<Action>): State {
    if actions == [] then INITIAL
    else Step(Run(maximum, actions[..|actions| - 1]), maximum, actions[|actions| - 1])
  }

  /** What one stream's events carry, in order. */
  function Delivered(events: seq<Event>, stream: Stream): seq<Byte> {
    if events == [] then [] else
    var last := events[|events| - 1];
    Delivered(events[..|events| - 1], stream) + if last.Output? && last.stream == stream then last.data else []
  }

  lemma DeliveredAppend(events: seq<Event>, e: Event, stream: Stream)
    ensures Delivered(events + [e], stream)
            == Delivered(events, stream) + if e.Output? && e.stream == stream then e.data else []
  {
    assert (events + [e])[..|events|] == events;
  }

  // ---------------------------------------------------------------------------------- invariant

  /** Bytes a reader was granted and has not sent yet. */
  function Granted(pc: Pc, maximum: nat): nat {
    match pc
    case Charged(chunk, previous) => if previous >= maximum then 0 else Min(maximum - previous, |chunk|)
    case Sending(data, _) => |data|
    case _ => 0
  }

  predicate Over(pc: Pc, maximum: nat) {
    pc.Joined? || (pc.Sending? && pc.last) || (pc.Charged? && pc.previous + |pc.chunk| > maximum)
  }

  predicate Unnoticed(pc: Pc, maximum: nat) { pc.Charged? && pc.previous + |pc.chunk| > maximum }

  function Uncharged(pc: Pc): nat { if pc.Holding? then |pc.chunk| else 0 }

  function Bit(b: bool): nat { if b then 1 else 0 }

  /** A chunk in hand is one read's worth, and is already part of the counter once it was charged. */
  predicate ChunkOk(pc: Pc, used: nat) {
    match pc
    case Holding(chunk) => 0 < |chunk| <= BUFFER
    case Charged(chunk, previous) => 0 < |chunk| <= BUFFER && previous + |chunk| <= used
    case _ => true
  }

  predicate ReaderOk(r: Reader, sent: seq<Byte>) {
    match r.pc
    case Reading => sent == r.read
    case Holding(chunk) => sent + chunk == r.read
    case Charged(chunk, previous) => sent + chunk == r.read
    case Sending(data, last) => sent + data <= r.read && (!last ==> sent + data == r.read)
    case Joined => sent <= r.read
  }

  predicate ChunksOk(s: State) { ChunkOk(s.out.pc, s.used) && ChunkOk(s.err.pc, s.used) }

  predicate CountOk(s: State) {
    s.used + Uncharged(s.out.pc) + Uncharged(s.err.pc) == |s.out.read| + |s.err.read|
  }

  predicate SpendOk(s: State, maximum: nat, sent: nat) {
    sent + s.lost + Granted(s.out.pc, maximum) + Granted(s.err.pc, maximum) == Min(s.used, maximum)
  }

  predicate BoundOk(s: State, maximum: nat) {
    s.used <= maximum + BUFFER * (Bit(Over(s.out.pc, maximum)) + Bit(Over(s.err.pc, maximum)))
  }

  predicate LimitOk(s: State, maximum: nat) {
    (s.limitHit || Unnoticed(s.out.pc, maximum) || Unnoticed(s.err.pc, maximum)) <==> s.used > maximum
  }

  predicate OnlyOutput(events: seq<Event>) { forall e | e in events :: e.Output? }

  predicate ExitOk(s: State) {
    match s.supervisor
    case Waiting => OnlyOutput(s.events)
    case WaitFailed => forall e | e in s.events :: !e.Exit?
    case Exited =>
      && BothJoined(s) && s.events != [] && s.events[|s.events| - 1] == Exit(s.limitHit)
      && OnlyOutput(s.events[..|s.events| - 1])
  }

  predicate BothJoined(s: State) { s.out.pc.Joined? && s.err.pc.Joined? }

  predicate Inv(s: State, maximum: nat) {
    var out, err := Delivered(s.events, Stdout), Delivered(s.events, Stderr);
    && ReaderOk(s.out, out) && ReaderOk(s.err, err) && ChunksOk(s) && CountOk(s)
    && SpendOk(s, maximum, |out| + |err|) && BoundOk(s, maximum) && LimitOk(s, maximum) && ExitOk(s)
  }

  /** What a step adds to a stream's events. */
  function Added(s: State, action: Action, stream: Stream): seq<Byte> {
    if action.Send? && action.delivered && action.stream == stream && s.Of(stream).pc.Sending?
    then s.Of(stream).pc.data else []
  }

  lemma DeliveredStep(s: State, maximum: nat, action: Action, stream: Stream)
    ensures Delivered(Step(s, maximum, action).events, stream) == Delivered(s.events, stream) + Added(s, action, stream)
  {
    match action
    case Send(sender, delivered) =>
      if s.Of(sender).pc.Sending? && delivered {
        DeliveredAppend(s.events, Output(sender, s.Of(sender).pc.data), stream);
      }
    case FailWait => DeliveredAppend(s.events, Failure, stream);
    case Finish => DeliveredAppend(s.events, Exit(s.limitHit), stream);
    case _ =>
  }

  lemma StepReader(s: State, maximum: nat, action: Action, stream: Stream, sent: seq<Byte>)
    requires ReaderOk(s.Of(stream), sent)
    ensures ReaderOk(Step(s, maximum, action).Of(stream), sent + Added(s, action, stream))
  {
    assert sent + [] == sent;
  }

  lemma StepCount(s: State, maximum: nat, action: Action)
    requires CountOk(s) && ChunksOk(s)
    ensures CountOk(Step(s, maximum, action)) && ChunksOk(Step(s, maximum, action))
  {}

  lemma ChargeSpend(s: State, maximum: nat, stream: Stream, sent: nat)
    requires SpendOk(s, maximum, sent)
    ensures SpendOk(Step(s, maximum, Charge(stream)), maximum, sent)
  {}

  lemma CompareSpend(s: State, maximum: nat, stream: Stream, sent: nat)
    requires SpendOk(s, maximum, sent)
    ensures SpendOk(Step(s, maximum, Compare(stream)), maximum, sent)
  {}

  lemma StepSpend(s: State, maximum: nat, action: Action, sent: nat)
    requires SpendOk(s, maximum, sent)
    ensures SpendOk(Step(s, maximum, action), maximum, sent + |Added(s, action, Stdout)| + |Added(s, action, Stderr)|)
  {
    match action
    case Charge(stream) => ChargeSpend(s, maximum, stream, sent);
    case Compare(stream) => CompareSpend(s, maximum, stream, sent);
    case _ =>
  }

  lemma StepBound(s: State, maximum: nat, action: Action)
    requires BoundOk(s, maximum) && ChunksOk(s)
    ensures BoundOk(Step(s, maximum, action), maximum)
  {}

  lemma StepLimit(s: State, maximum: nat, action: Action)
    requires LimitOk(s, maximum) && ChunksOk(s)
    ensures LimitOk(Step(s, maximum, action), maximum)
  {}

  lemma StepExit(s: State, maximum: nat, action: Action)
    requires ExitOk(s)
    ensures ExitOk(Step(s, maximum, action))
  {
    assert (s.events + [Exit(s.limitHit)])[..|s.events|] == s.events;
  }

  lemma StepInv(s: State, maximum: nat, action: Action)
    requires Inv(s, maximum)
    ensures Inv(Step(s, maximum, action), maximum)
  {
    DeliveredStep(s, maximum, action, Stdout);
    DeliveredStep(s, maximum, action, Stderr);
    var out, err := Delivered(s.events, Stdout), Delivered(s.events, Stderr);
    StepReader(s, maximum, action, Stdout, out);
    StepReader(s, maximum, action, Stderr, err);
    StepCount(s, maximum, action);
    StepSpend(s, maximum, action, |out| + |err|);
    StepBound(s, maximum, action);
    StepLimit(s, maximum, action);
    StepExit(s, maximum, action);
  }

  lemma {:induction false} RunInv(maximum: nat, actions: seq<Action>)
    ensures Inv(Run(maximum, actions), maximum)
  {
    if actions != [] {
      RunInv(maximum, actions[..|actions| - 1]);
      StepInv(Run(maximum, actions[..|actions| - 1]), maximum, actions[|actions| - 1]);
    }
  }

  // ----------------------------------------------------------------------------------- theorems

  /** At every moment of every run each stream was delivered a prefix of what its reader read, and the
      counter is at most two buffers over the maximum. */
  lemma PrefixAndBound(maximum: nat, actions: seq<Action>)
    ensures var s := Run(maximum, actions);
      && Delivered(s.events, Stdout) <= s.out.read && Delivered(s.events, Stderr) <= s.err.read
      && |Delivered(s.events, Stdout)| + |Delivered(s.events, Stderr)| <= maximum
      && s.used <= maximum + 2 * BUFFER
  {
    RunInv(maximum, actions);
  }

  /** Once both readers are joined, the limit was hit exactly when more than the maximum was read; and
      exactly the smaller of the two was delivered, less what failed sends lost. */
  lemma JoinedTotals(maximum: nat, actions: seq<Action>)
    requires BothJoined(Run(maximum, actions))
    ensures var s := Run(maximum, actions);
      var read := |s.out.read| + |s.err.read|;
      && (s.limitHit <==> read > maximum)
      && |Delivered(s.events, Stdout)| + |Delivered(s.events, Stderr)| + s.lost == Min(read, maximum)
      && (s.lost == 0 && !s.limitHit ==>
            Delivered(s.events, Stdout) == s.out.read && Delivered(s.events, Stderr) == s.err.read)
  {
    RunInv(maximum, actions);
  }

  /** The exit event comes after all output, at most once, and carries the final flag. */
  lemma ExitIsLast(maximum: nat, actions: seq<Action>)
    ensures var s := Run(maximum, actions);
      forall i | 0 <= i < |s.events| && s.events[i].Exit? ::
        i == |s.events| - 1 && BothJoined(s) && s.events[i].exceeded == s.limitHit
  {
    RunInv(maximum, actions);
    OutputBeforeExit(Run(maximum, actions));
  }

  lemma OutputBeforeExit(s: State)
    requires ExitOk(s)
    ensures s.supervisor.Exited? ==> forall i | 0 <= i < |s.events| - 1 :: s.events[i].Output?
  {
    if s.supervisor.Exited? {
      forall i | 0 <= i < |s.events| - 1 ensures s.events[i].Output? {
        assert s.events[i] in s.events[..|s.events| - 1];
      }
    }
  }

  /** Nothing is sent and nothing changes after the exit event. */
  lemma ExitIsFinal(maximum: nat, actions: seq<Action>, action: Action)
    requires Run(maximum, actions).supervisor.Exited?
    ensures Step(Run(maximum, actions), maximum, action) == Run(maximum, actions)
  {
    RunInv(maximum, actions);
  }

  // ------------------------------------------------------------------------- the process backend

  /** Standard output first, standard error in what is left of the limit. */
  predicate Cut(out: seq<Byte>, err: seq<Byte>, limit: nat, a: seq<Byte>, b: seq<Byte>) {
    && a <= out && |a| == Min(|out|, limit)
    && b <= err && |b| == Min(|err|, limit - |a|)
  }

  method TruncateOutput(out: seq<Byte>, err: seq<Byte>, limit: nat)
    returns (stdout: seq<Byte>, stderr: seq<Byte>, outCut: bool, errCut: bool)
    ensures Cut(out, err, limit, stdout, stderr)
    ensures outCut <==> stdout != out
    ensures errCut <==> stderr != err
  {
    stdout, stderr := out, err;
    outCut := |stdout| > limit;
    if outCut {
      stdout := stdout[..limit];
    }
    var remaining := if limit > |stdout| then limit - |stdout| else 0;
    errCut := |stderr| > remaining;
    if errCut {
      stderr := stderr[..remaining];
    }
  }

  /** A run for a process that writes `out` and `err` in full: both readers are joined, no send failed,
      and unless the limit was hit everything was read. */
  predicate Serves(maximum: nat, actions: seq<Action>, out: seq<Byte>, err: seq<Byte>) {
    var s := Run(maximum, actions);
    && BothJoined(s) && s.lost == 0
    && s.out.read <= out && s.err.read <= err
    && (!s.limitHit ==> s.out.read == out && s.err.read == err)
  }

  lemma CutCounts(out: seq<Byte>, err: seq<Byte>, limit: nat, a: seq<Byte>, b: seq<Byte>)
    requires Cut(out, err, limit, a, b)
    ensures |a| + |b| == Min(|out| + |err|, limit)
    ensures a != out <==> |out| > limit
    ensures b != err <==> |out| + |err| > limit && (|out| <= limit || err != [])
  {}

  lemma ServedTotals(maximum: nat, actions: seq<Action>, out: seq<Byte>, err: seq<Byte>)
    requires Serves(maximum, actions, out, err)
    ensures var s := Run(maximum, actions);
      && |Delivered(s.events, Stdout)| + |Delivered(s.events, Stderr)| == Min(|out| + |err|, maximum)
      && (s.limitHit <==> |out| + |err| > maximum)
  {
    JoinedTotals(maximum, actions);
    ReadTotals(Run(maximum, actions), out, err);
  }

  lemma ReadTotals(s: State, out: seq<Byte>, err: seq<Byte>)
    requires s.out.read <= out && s.err.read <= err
    ensures |s.out.read| + |s.err.read| <= |out| + |err|
    ensures s.out.read == out && s.err.read == err ==> |s.out.read| + |s.err.read| == |out| + |err|
  {}

  /** On a process's whole output both backends keep equally many bytes, and the guest reports the limit
      exactly if the process backend cuts something. */
  lemma BackendsAgree(maximum: nat, actions: seq<Action>, out: seq<Byte>, err: seq<Byte>, a: seq<Byte>, b: seq<Byte>)
    requires Serves(maximum, actions, out, err) && Cut(out, err, maximum, a, b)
    ensures var s := Run(maximum, actions);
      && |Delivered(s.events, Stdout)| + |Delivered(s.events, Stderr)| == |a| + |b|
      && (s.limitHit <==> |out| + |err| > maximum)
      && (s.limitHit <==> a != out || b != err)
  {
    CutCounts(out, err, maximum, a, b);
    ServedTotals(maximum, actions, out, err);
  }

  /** The guest's exit event marks both streams alike. These marks are those of the process backend
      exactly within the limit, or if standard output alone exceeds it and there is standard error to lose. */
  lemma MarksAgree(
      maximum: nat, actions: seq<Action>, out: seq<Byte>, err: seq<Byte>, a: seq<Byte>, b: seq<Byte>, mark: bool)
    requires Serves(maximum, actions, out, err) && Cut(out, err, maximum, a, b)
    requires Exit(mark) in Run(maximum, actions).events
    ensures mark == (a != out) == (b != err)
            <==> |out| + |err| <= maximum || (|out| > maximum && err != [])
  {
    BackendsAgree(maximum, actions, out, err, a, b);
    CutCounts(out, err, maximum, a, b);
    ExitIsLast(maximum, actions);
  }

  /** Every run keeps the very bytes that the process backend keeps exactly if the limit is not exceeded,
      one of the streams is empty, or nothing may be kept. */
  lemma BytesAgree(maximum: nat, out: seq<Byte>, err: seq<Byte>)
    ensures (forall actions | Serves(maximum, actions, out, err) ::
               var events := Run(maximum, actions).events;
               Cut(out, err, maximum, Delivered(events, Stdout), Delivered(events, Stderr)))
            <==> |out| + |err| <= maximum || out == [] || err == [] || maximum == 0
  {
    if |out| + |err| <= maximum || out == [] || err == [] || maximum == 0 {
      forall actions | Serves(maximum, actions, out, err)
        ensures var events := Run(maximum, actions).events;
          Cut(out, err, maximum, Delivered(events, Stdout), Delivered(events, Stderr))
      {
        JoinedTotals(maximum, actions);
        PrefixAndBound(maximum, actions);
      }
    } else {
      var actions := ErrorFirst(maximum, out, err);
    }
  }

  // --------------------------------------------------- the schedule that reads standard error first

  /** `m` bytes of standard output and `n` of standard error were read and delivered, one at a time. */
  predicate Fed(s: State, out: seq<Byte>, err: seq<Byte>, m: nat, n: nat)
    requires m <= |out| && n <= |err|
  {
    && s == State(Reader(Reading, out[..m]), Reader(Reading, err[..n]), m + n, false, 0, s.events, Waiting)
    && Delivered(s.events, Stdout) == out[..m] && Delivered(s.events, Stderr) == err[..n]
  }

  lemma RunMore(maximum: nat, actions: seq<Action>, action: Action)
    ensures Run(maximum, actions + [action]) == Step(Run(maximum, actions), maximum, action)
  {
    assert (actions + [action])[..|actions|] == actions;
  }

  lemma RunFour(maximum: nat, actions: seq<Action>, a: Action, b: Action, c: Action, d: Action)
    ensures Run(maximum, actions + [a] + [b] + [c] + [d])
         == Step(Step(Step(Step(Run(maximum, actions), maximum, a), maximum, b), maximum, c), maximum, d)
  {
    RunMore(maximum, actions, a);
    RunMore(maximum, actions + [a], b);
    RunMore(maximum, actions + [a] + [b], c);
    RunMore(maximum, actions + [a] + [b] + [c], d);
  }

  /** The two steps that take a byte out of the stream and off the budget. */
  lemma TakeByte(s: State, maximum: nat, stream: Stream, x: Byte)
    requires s.Of(stream).pc.Reading?
    ensures Step(Step(s, maximum, Receive(stream, [x])), maximum, Charge(stream))
         == s.With(stream, Reader(Charged([x], s.used), s.Of(stream).read + [x])).(used := s.used + 1)
  {
    assert Step(s, maximum, Receive(stream, [x])) == s.With(stream, Reader(Holding([x]), s.Of(stream).read + [x]));
  }

  /** The two steps that send it on, if the budget allows. */
  lemma GiveByte(s: State, maximum: nat, stream: Stream, x: Byte, previous: nat)
    requires s.Of(stream).pc == Charged([x], previous) && previous < maximum
    ensures Step(Step(s, maximum, Compare(stream)), maximum, Send(stream, true))
         == s.With(stream, Reader(Reading, s.Of(stream).read)).(events := s.events + [Output(stream, [x])])
  {
    assert [x][..1] == [x];
    assert Step(s, maximum, Compare(stream)) == s.With(stream, Reader(Sending([x], false), s.Of(stream).read));
  }

  /** One byte within the budget goes all the way. */
  lemma FeedByte(maximum: nat, actions: seq<Action>, stream: Stream, x: Byte) returns (more: seq<Action>)
    requires var s := Run(maximum, actions); s.Of(stream).pc.Reading? && s.used < maximum
    ensures var s := Run(maximum, actions);
      Run(maximum, more) == s.With(stream, Reader(Reading, s.Of(stream).read + [x]))
                             .(used := s.used + 1, events := s.events + [Output(stream, [x])])
  {
    var s := Run(maximum, actions);
    more := actions + [Receive(stream, [x])] + [Charge(stream)] + [Compare(stream)] + [Send(stream, true)];
    RunFour(maximum, actions, Receive(stream, [x]), Charge(stream), Compare(stream), Send(stream, true));
    TakeByte(s, maximum, stream, x);
    GiveByte(s.With(stream, Reader(Charged([x], s.used), s.Of(stream).read + [x])).(used := s.used + 1),
             maximum, stream, x, s.used);
  }

  lemma Feed(maximum: nat, out: seq<Byte>, err: seq<Byte>, m: nat, n: nat) returns (actions: seq<Action>)
    requires m <= |out| && n <= |err| && m + n <= maximum
    ensures Fed(Run(maximum, actions), out, err, m, n)
    decreases m + n
  {
    if m > 0 {
      var before := Feed(maximum, out, err, m - 1, n);
      actions := FeedByte(maximum, before, Stdout, out[m - 1]);
      DeliveredAppend(Run(maximum, before).events, Output(Stdout, [out[m - 1]]), Stdout);
      DeliveredAppend(Run(maximum, before).events, Output(Stdout, [out[m - 1]]), Stderr);
      assert out[..m] == out[..m - 1] + [out[m - 1]];
    } else if n > 0 {
      var before := Feed(maximum, out, err, m, n - 1);
      actions := FeedByte(maximum, before, Stderr, err[n - 1]);
      DeliveredAppend(Run(maximum, before).events, Output(Stderr, [err[n - 1]]), Stdout);
      DeliveredAppend(Run(maximum, before).events, Output(Stderr, [err[n - 1]]), Stderr);
      assert err[..n] == err[..n - 1] + [err[n - 1]];
    } else {
      actions := [];
    }
  }

  /** One byte beyond the budget ends its reader; the other one ends as well. */
  lemma Overflow(maximum: nat, actions: seq<Action>, x: Byte) returns (more: seq<Action>)
    requires var s := Run(maximum, actions); s.out.pc.Reading? && s.err.pc.Reading? && s.used == maximum
    ensures var s := Run(maximum, actions);
      Run(maximum, more) == s.(out := Reader(Joined, s.out.read + [x]), err := s.err.(pc := Joined),
                               used := maximum + 1, limitHit := true)
  {
    more := actions + [Receive(Stdout, [x])] + [Charge(Stdout)] + [Compare(Stdout)] + [EndOfStream(Stderr)];
    RunFour(maximum, actions, Receive(Stdout, [x]), Charge(Stdout), Compare(Stdout), EndOfStream(Stderr));
    TakeByte(Run(maximum, actions), maximum, Stdout, x);
  }

  /** Where the budget is too small for two non-empty streams, reading standard error first delivers less
      standard output than the process backend keeps. */
  lemma ErrorFirst(maximum: nat, out: seq<Byte>, err: seq<Byte>) returns (actions: seq<Action>)
    requires |out| + |err| > maximum > 0 && out != [] && err != []
    ensures Serves(maximum, actions, out, err)
    ensures |Delivered(Run(maximum, actions).events, Stdout)| < Min(|out|, maximum)
  {
    var n := Min(|err|, maximum);
    var m := maximum - n;
    var fed := Feed(maximum, out, err, m, n);
    actions := Overflow(maximum, fed, out[m]);
    assert out[..m] + [out[m]] == out[..m + 1];
  }

  // -------------------------------------------------------------------------------- the host side

  datatype Collected = Collected(stdout: seq<Byte>, stderr: seq<Byte>, exceeded: bool)

  /** The host concatenates the events of each stream and needs an exit event. */
  method Collect(events: seq<Event>) returns (r: Result<Collected, ()>)
    ensures r.Ok? <==> Failure !in events && exists e :: e in events && e.Exit?
    ensures r.Ok? ==> r.value.stdout == Delivered(events, Stdout) && r.value.stderr == Delivered(events, Stderr)
    ensures r.Ok? ==> Exit(r.value.exceeded) in events
  {
    var stdout, stderr := [], [];
    var exit := None;
    for i := 0 to |events|
      invariant Failure !in events[..i]
      invariant stdout == Delivered(events[..i], Stdout) && stderr == Delivered(events[..i], Stderr)
      invariant exit.Some? <==> exists e :: e in events[..i] && e.Exit?
      invariant exit.Some? ==> Exit(exit.value) in events[..i]
    {
      assert events[..i + 1] == events[..i] + [events[i]];
      DeliveredAppend(events[..i], events[i], Stdout);
      DeliveredAppend(events[..i], events[i], Stderr);
      match events[i] {
        case Output(stream, data) =>
          if stream.Stdout? {
            stdout := stdout + data;
          } else {
            stderr := stderr + data;
          }
        case Exit(exceeded) => exit := Some(exceeded);
        case Failure =>
          return Err(());
      }
    }
    assert events[..|events|] == events;
    if exit.None? {
      return Err(());
    }
    return Ok(Collected(stdout, stderr, exit.value));
  }

  /** What the host collects from a finished run without lost sends is what the readers read, cut to the maximum. */
  lemma HostSees(maximum: nat, actions: seq<Action>, collected: Collected)
    requires var s := Run(maximum, actions);
      && s.supervisor.Exited? && s.lost == 0 && Exit(collected.exceeded) in s.events
      && collected.stdout == Delivered(s.events, Stdout) && collected.stderr == Delivered(s.events, Stderr)
    ensures var s := Run(maximum, actions);
      var read := |s.out.read| + |s.err.read|;
      && Failure !in s.events
      && collected.stdout <= s.out.read && collected.stderr <= s.err.read
      && |collected.stdout| + |collected.stderr| == Min(read, maximum)
      && (collected.exceeded <==> read > maximum)
  {
    RunInv(maximum, actions);
    ExitIsLast(maximum, actions);
    JoinedTotals(maximum, actions);
    OutputBeforeExit(Run(maximum, actions));
  }
}
