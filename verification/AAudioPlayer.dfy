/** The AAudio output filter (msaaudio_player.cpp): the ticker thread, callers of the filter's
    methods and one FIFO worker share a stream pointer under a mutex. A step is one section under
    the mutex, or one AAudio call of the worker; what AAudio answers is part of the event. */
module AAudioPlayer {
  import opened Options

  type Stream = nat

  /** The functions queued on the worker thread. */
  datatype Task = Init | Close | Restart | Adjust | VolumeHack

  /** Where the worker is. `again` marks the two halves of a restart. */
  datatype Worker =
    | Idle
    | Opening(again: bool)                     // about to open a stream
    | Opened(own: Stream, again: bool)         // opened, not yet started and published
    | Detaching(own: Stream, again: bool)      // has read the pointer, about to clear it
    | Closing(own: Stream, again: bool)        // has cleared the pointer, about to close the stream
    | Finishing                                // restart done, about to clear its flag

  datatype State = State(stream: Option<Stream>, open: set<Stream>, worker: Worker, queue: seq<Task>, attached: bool,
                         restartScheduled: bool, adjusting: bool, checkDevice: bool, hackRequired: bool, next: Stream)

  const START: State := State(None, {}, Idle, [], false, false, false, false, false, 0)

  datatype StreamState = Disconnected | Started | OtherState

  datatype Event =
    | Preprocess | Postprocess
    | Process(state: StreamState, deviceDiffers: bool, xRunsGrew: bool)
    | SetDevice
    | Begin | OpenResult(ok: bool) | StartResult(ok: bool) | Detach | CloseStream | FinishRestart

  /** The ticker calls preprocess, then process, then postprocess; the worker takes one step at a time. */
  predicate Enabled(s: State, e: Event) {
    match e
    case Preprocess => !s.attached
    case Postprocess => s.attached
    case Process(_, _, _) => s.attached
    case SetDevice => true
    case Begin => s.worker.Idle? && s.queue != []
    case OpenResult(_) => s.worker.Opening?
    case StartResult(_) => s.worker.Opened?
    case Detach => s.worker.Detaching?
    case CloseStream => s.worker.Closing?
    case FinishRestart => s.worker.Finishing?
  }

  function Queued(s: State, t: Task): State { s.(queue := s.queue + [t]) }

  /** `android_snd_write_process`, under the mutex and with a stream. */
  function Processed(s: State, state: StreamState, deviceDiffers: bool, xRunsGrew: bool): State {
    if state.Disconnected? then
      if s.restartScheduled then s else Queued(s, Restart).(restartScheduled := true)
    else
      var s1 := if state.Started? && s.hackRequired then Queued(s, VolumeHack).(hackRequired := false) else s;
      if s1.checkDevice then
        (if deviceDiffers then Queued(s1, Restart) else s1).(checkDevice := false)
      else if xRunsGrew && !s1.adjusting then Queued(s1, Adjust).(adjusting := true)
      else s1
  }

  /** The end of `_aaudio_player_init`: a restart still has its flag to clear. */
  function Done(again: bool): Worker { if again then Finishing else Idle }

  /** The worker takes a task; the buffer adjustment runs as a whole under the mutex. */
  function Begun(s: State): State
    requires s.queue != []
  {
    var s1 := s.(queue := s.queue[1..]);
    match s.queue[0]
    case Init => s1.(worker := Opening(false))
    case Close => if s.stream.Some? then s1.(worker := Detaching(s.stream.value, false)) else s1
    case Restart => s1.(worker := if s.stream.Some? then Detaching(s.stream.value, true) else Opening(true))
    case Adjust => if s.adjusting && s.stream.Some? then s1.(adjusting := false) else s1
    case VolumeHack => s1
  }

  function Next(s: State, e: Event): State
    requires Enabled(s, e)
  {
    match e
    case Preprocess => Queued(s, Init).(attached := true)
    case Postprocess => Queued(s, Close).(attached := false, adjusting := false)
    case Process(state, deviceDiffers, xRunsGrew) =>
      if s.stream.None? then s else Processed(s, state, deviceDiffers, xRunsGrew)
    case SetDevice => if s.stream.Some? then Queued(s, Restart) else s.(checkDevice := true)
    case Begin => Begun(s)
    case OpenResult(ok) =>
      if ok then s.(worker := Opened(s.next, s.worker.again), open := s.open + {s.next}, next := s.next + 1)
      else s.(worker := Done(s.worker.again))
    case StartResult(ok) =>
      if ok then s.(stream := Some(s.worker.own), worker := Done(s.worker.again), hackRequired := true)
      else s.(open := s.open - {s.worker.own}, worker := Done(s.worker.again))
    case Detach => s.(stream := None, worker := Closing(s.worker.own, s.worker.again))
    case CloseStream =>
      s.(open := s.open - {s.worker.own}, adjusting := false,
         worker := if s.worker.again then Opening(true) else Idle)
    case FinishRestart => s.(worker := Idle, restartScheduled := false)
  }

  /** The streams that the AAudio calls of a step work on. */
  function Uses(s: State, e: Event): set<Stream>
    requires Enabled(s, e)
  {
    match e
    case Process(_, _, _) => if s.stream.Some? then {s.stream.value} else {}
    case Begin => if s.queue[0].Adjust? && s.adjusting && s.stream.Some? then {s.stream.value} else {}
    case StartResult(_) => {s.worker.own}
    case CloseStream => {s.worker.own}
    case _ => {}
  }

  /** Any interleaving of the three threads. */
  ghost predicate Runs(s: State, events: seq<Event>)
    decreases |events|
  {
    events == [] || (Enabled(s, events[0]) && Runs(Next(s, events[0]), events[1..]))
  }

  ghost function After(s: State, events: seq<Event>): State
    requires Runs(s, events)
    decreases |events|
  {
    if events == [] then s else After(Next(s, events[0]), events[1..])
  }

  // ---------------------------------------------------------------- no use of a closed stream

  predicate Safe(s: State) {
    && (s.stream.Some? ==> s.stream.value in s.open)
    && (forall x | x in s.open :: x < s.next)
    && match s.worker
       case Opened(own, _) => own in s.open && s.stream != Some(own)
       case Detaching(own, _) => s.stream == Some(own)
       case Closing(own, _) => own in s.open && s.stream.None?
       case _ => true
  }

  predicate ByCaller(e: Event) { e.Preprocess? || e.Postprocess? || e.Process? || e.SetDevice? }

  predicate SameStreams(s: State, t: State) {
    t.stream == s.stream && t.open == s.open && t.worker == s.worker && t.next == s.next
  }

  lemma ProcessedKeepsStreams(s: State, state: StreamState, deviceDiffers: bool, xRunsGrew: bool)
    ensures SameStreams(s, Processed(s, state, deviceDiffers, xRunsGrew))
  {
  }

  /** The ticker and the callers only queue tasks and set flags. */
  lemma CallersKeepStreams(s: State, e: Event)
    requires ByCaller(e) && Enabled(s, e)
    ensures SameStreams(s, Next(s, e))
  {
    if e.Process? {
      ProcessedKeepsStreams(s, e.state, e.deviceDiffers, e.xRunsGrew);
    }
  }

  lemma BeginKeepsStreams(s: State)
    requires Enabled(s, Begin)
    ensures
      var s' := Begun(s);
      && s'.stream == s.stream && s'.open == s.open && s'.next == s.next && s'.queue == s.queue[1..]
      && s'.attached == s.attached && s'.restartScheduled == s.restartScheduled
      && (s'.worker == s.worker || s'.worker.Opening? ||
          (s'.worker.Detaching? && s.stream == Some(s'.worker.own)))
  {
    match s.queue[0]
    case Init =>
    case Close =>
    case Restart =>
    case Adjust =>
    case VolumeHack =>
  }

  lemma OpenIsSafe(s: State, ok: bool)
    requires Safe(s) && s.worker.Opening?
    ensures Safe(Next(s, OpenResult(ok)))
  {
  }

  lemma StartIsSafe(s: State, ok: bool)
    requires Safe(s) && s.worker.Opened?
    ensures Safe(Next(s, StartResult(ok)))
  {
  }

  lemma CloseIsSafe(s: State)
    requires Safe(s)
    ensures s.worker.Detaching? ==> Safe(Next(s, Detach))
    ensures s.worker.Closing? ==> Safe(Next(s, CloseStream))
    ensures s.worker.Finishing? ==> Safe(Next(s, FinishRestart))
  {
  }

  lemma StepIsSafe(s: State, e: Event)
    requires Safe(s) && Enabled(s, e)
    ensures Safe(Next(s, e)) && Uses(s, e) <= s.open
  {
    match e
    case Begin => BeginKeepsStreams(s);
    case OpenResult(ok) => OpenIsSafe(s, ok);
    case StartResult(ok) => StartIsSafe(s, ok);
    case Detach => CloseIsSafe(s);
    case CloseStream => CloseIsSafe(s);
    case FinishRestart => CloseIsSafe(s);
    case _ => CallersKeepStreams(s, e);
  }

  /** The states of a new filter: every result below applies to all runs from here. */
  lemma StartIsSound()
    ensures Safe(START) && FlagsBacked(START) && Tidy(START) && Promised(START)
  {
  }

  /** Main result: in every interleaving the pointer is null or an open stream, and no step works on
      a closed one. */
  lemma {:induction false} RunIsSafe(s: State, events: seq<Event>, e: Event)
    requires Safe(s) && Runs(s, events) && Enabled(After(s, events), e)
    ensures Safe(After(s, events)) && Uses(After(s, events), e) <= After(s, events).open
    decreases |events|
  {
    if events == [] {
      StepIsSafe(s, e);
    } else {
      StepIsSafe(s, events[0]);
      RunIsSafe(Next(s, events[0]), events[1..], e);
    }
  }

  // ---------------------------------------------------------------- flags

  predicate Restarting(w: Worker) {
    w.Finishing? || ((w.Opening? || w.Opened? || w.Detaching? || w.Closing?) && w.again)
  }

  /** A flag that holds further requests back is backed by work that will clear it. */
  predicate FlagsBacked(s: State) {
    && (s.restartScheduled ==> Restart in s.queue || Restarting(s.worker))
    && (s.adjusting ==> Adjust in s.queue && (s.stream.Some? || s.worker.Closing?))
  }

  lemma ProcessBacksFlags(s: State, state: StreamState, deviceDiffers: bool, xRunsGrew: bool)
    requires FlagsBacked(s) && s.stream.Some?
    ensures FlagsBacked(Processed(s, state, deviceDiffers, xRunsGrew))
  {
    ProcessedKeepsStreams(s, state, deviceDiffers, xRunsGrew);
  }

  lemma CallersBackFlags(s: State, e: Event)
    requires FlagsBacked(s) && ByCaller(e) && Enabled(s, e)
    ensures FlagsBacked(Next(s, e))
  {
    CallersKeepStreams(s, e);
    if e.Process? && s.stream.Some? {
      ProcessBacksFlags(s, e.state, e.deviceDiffers, e.xRunsGrew);
    }
  }

  lemma BeginBacksFlags(s: State)
    requires FlagsBacked(s) && Safe(s) && Enabled(s, Begin)
    ensures FlagsBacked(Next(s, Begin))
  {
    BeginKeepsStreams(s);
    assert s.queue == [s.queue[0]] + s.queue[1..];
    assert s.queue[0].Restart? ==> Restarting(Next(s, Begin).worker);
  }

  lemma WorkerBacksFlags(s: State, e: Event)
    requires FlagsBacked(s) && Safe(s) && !ByCaller(e) && !e.Begin? && Enabled(s, e)
    ensures FlagsBacked(Next(s, e))
  {
    var s' := Next(s, e);
    assert s'.queue == s.queue;
    assert s'.adjusting ==> s.adjusting && !e.CloseStream?;
    assert Restarting(s.worker) && s'.restartScheduled ==> Restarting(s'.worker);
  }

  lemma StepBacksFlags(s: State, e: Event)
    requires Safe(s) && FlagsBacked(s) && Enabled(s, e)
    ensures FlagsBacked(Next(s, e))
  {
    if ByCaller(e) {
      CallersBackFlags(s, e);
    } else if e.Begin? {
      BeginBacksFlags(s);
    } else {
      WorkerBacksFlags(s, e);
    }
  }

  /** Main result: no interleaving leaves a restart or an adjustment announced but not under way. */
  lemma {:induction false} RunBacksFlags(s: State, events: seq<Event>)
    requires Safe(s) && FlagsBacked(s) && Runs(s, events)
    ensures FlagsBacked(After(s, events))
    decreases |events|
  {
    if events != [] {
      StepIsSafe(s, events[0]);
      StepBacksFlags(s, events[0]);
      RunBacksFlags(Next(s, events[0]), events[1..]);
    }
  }

  // ---------------------------------------------------------------- no leaked stream

  /** The stream the worker holds on its own: opened but not published, or detached but not closed. */
  function InHand(w: Worker): set<Stream> { if w.Opened? || w.Closing? then {w.own} else {} }

  function Current(s: State): set<Stream> { if s.stream.Some? then {s.stream.value} else {} }

  /** Every stream ever opened is current, in the worker's hand, or closed again. */
  predicate NoLeak(s: State) { s.open == Current(s) + InHand(s.worker) }

  /** Whether the pointer may be set once the worker has finished what it is doing. */
  predicate MaySetNow(s: State) {
    match s.worker
    case Idle => s.stream.Some?
    case Finishing => s.stream.Some?
    case Opening(_) => true
    case Opened(_, _) => true
    case Detaching(_, again) => again
    case Closing(_, again) => again
  }

  predicate MaySetAfter(b: bool, t: Task) {
    match t
    case Init => true
    case Restart => true
    case Close => false
    case _ => b
  }

  /** Whether the pointer may be set once the queue is empty. */
  predicate MaySetAtEnd(b: bool, queue: seq<Task>)
    decreases |queue|
  {
    if queue == [] then b else MaySetAtEnd(MaySetAfter(b, queue[0]), queue[1..])
  }

  /** No queued initialization finds the pointer set: it would overwrite it. */
  predicate Orderly(b: bool, queue: seq<Task>)
    decreases |queue|
  {
    queue == [] || ((queue[0].Init? ==> !b) && Orderly(MaySetAfter(b, queue[0]), queue[1..]))
  }

  predicate Tidy(s: State) {
    && NoLeak(s)
    && (s.worker.Opening? || s.worker.Opened? ==> s.stream.None?)
    && Orderly(MaySetNow(s), s.queue)
    && (!s.attached ==> !MaySetAtEnd(MaySetNow(s), s.queue))
  }

  lemma {:induction false} QueueExtended(b: bool, queue: seq<Task>, t: Task)
    ensures MaySetAtEnd(b, queue + [t]) == MaySetAfter(MaySetAtEnd(b, queue), t)
    ensures Orderly(b, queue + [t]) <==> Orderly(b, queue) && (t.Init? ==> !MaySetAtEnd(b, queue))
    decreases |queue|
  {
    if queue == [] {
      assert (queue + [t])[1..] == [];
    } else {
      assert (queue + [t])[1..] == queue[1..] + [t];
      QueueExtended(MaySetAfter(b, queue[0]), queue[1..], t);
    }
  }

  /** A null pointer is never worse than one that may be set. */
  lemma {:induction false} NullIsBetter(b: bool, queue: seq<Task>)
    ensures Orderly(b, queue) ==> Orderly(false, queue)
    ensures !MaySetAtEnd(b, queue) ==> !MaySetAtEnd(false, queue)
    decreases |queue|
  {
    if queue != [] && !(queue[0].Init? || queue[0].Restart? || queue[0].Close?) {
      NullIsBetter(b, queue[1..]);
    }
  }

  lemma QueueIsTidy(s: State, t: Task, attached: bool)
    requires Safe(s) && Tidy(s)
    requires t.Init? ==> !s.attached && attached
    requires t.Restart? ==> attached
    requires !attached && s.attached ==> t.Close?
    ensures Tidy(Queued(s, t).(attached := attached))
  {
    QueueExtended(MaySetNow(s), s.queue, t);
  }

  lemma ProcessIsTidy(s: State, state: StreamState, deviceDiffers: bool, xRunsGrew: bool)
    requires Safe(s) && Tidy(s) && s.attached && s.stream.Some?
    ensures Tidy(Processed(s, state, deviceDiffers, xRunsGrew))
  {
    QueueExtended(MaySetNow(s), s.queue, Restart);
    QueueExtended(MaySetNow(s), s.queue, VolumeHack);
    QueueExtended(MaySetNow(s), s.queue, Adjust);
    var q := s.queue + [VolumeHack];
    QueueExtended(MaySetNow(s), q, Restart);
    QueueExtended(MaySetNow(s), q, Adjust);
  }

  /** The worker's own steps change neither the queue nor the ticker's phase. */
  lemma WorkerIsTidy(s: State, e: Event)
    requires Safe(s) && Tidy(s) && Enabled(s, e) && !ByCaller(e) && !e.Begin?
    ensures Tidy(Next(s, e))
  {
    var s' := Next(s, e);
    NullIsBetter(true, s.queue);
    assert s'.queue == s.queue && s'.attached == s.attached;
    assert MaySetNow(s') ==> MaySetNow(s);
    WorkerDoesNotLeak(s, e);
  }

  lemma WorkerDoesNotLeak(s: State, e: Event)
    requires Safe(s) && NoLeak(s) && Enabled(s, e) && !ByCaller(e) && !e.Begin?
    requires s.worker.Opening? || s.worker.Opened? ==> s.stream.None?
    ensures NoLeak(Next(s, e))
    ensures Next(s, e).worker.Opening? || Next(s, e).worker.Opened? ==> Next(s, e).stream.None?
  {
    match e
    case OpenResult(ok) =>
    case StartResult(ok) =>
    case Detach =>
    case CloseStream =>
    case FinishRestart =>
  }

  lemma BeginIsTidy(s: State)
    requires Safe(s) && Tidy(s) && Enabled(s, Begin)
    ensures Tidy(Next(s, Begin))
  {
    BeginKeepsStreams(s);
    assert MaySetNow(Next(s, Begin)) == MaySetAfter(MaySetNow(s), s.queue[0]);
  }

  /** A device change between postprocess and the next preprocess, while the stream is up. */
  predicate LateDevice(s: State, e: Event) { e.SetDevice? && !s.attached && s.stream.Some? }

  /** Main result: a step keeps every opened stream current or closed, and keeps the queue in order,
      exactly when it is not a device change that finds the pointer still set after postprocess. */
  lemma StepIsTidy(s: State, e: Event)
    requires Safe(s) && Tidy(s) && Enabled(s, e)
    ensures Tidy(Next(s, e)) <==> !LateDevice(s, e)
  {
    match e
    case Preprocess => QueueIsTidy(s, Init, true);
    case Postprocess => QueueIsTidy(s, Close, false);
    case Process(state, deviceDiffers, xRunsGrew) =>
      if s.stream.Some? {
        ProcessIsTidy(s, state, deviceDiffers, xRunsGrew);
      }
    case SetDevice => QueueExtended(MaySetNow(s), s.queue, Restart);
    case Begin => BeginIsTidy(s);
    case _ => WorkerIsTidy(s, e);
  }

  ghost predicate NoLateDevice(s: State, events: seq<Event>)
    requires Runs(s, events)
    decreases |events|
  {
    events == [] ||
    (!LateDevice(s, events[0]) && NoLateDevice(Next(s, events[0]), events[1..]))
  }

  lemma {:induction false} RunIsTidy(s: State, events: seq<Event>)
    requires Safe(s) && Tidy(s) && Runs(s, events) && NoLateDevice(s, events)
    ensures NoLeak(After(s, events)) && Tidy(After(s, events))
    decreases |events|
  {
    if events != [] {
      StepIsSafe(s, events[0]);
      StepIsTidy(s, events[0]);
      RunIsTidy(Next(s, events[0]), events[1..]);
    }
  }

  lemma RunCons(s: State, e: Event, events: seq<Event>)
    requires Enabled(s, e) && Runs(Next(s, e), events)
    ensures Runs(s, [e] + events) && After(s, [e] + events) == After(Next(s, e), events)
  {
    assert ([e] + events)[1..] == events;
  }

  lemma {:induction false} RunAppended(s: State, front: seq<Event>, back: seq<Event>)
    requires Runs(s, front) && Runs(After(s, front), back)
    ensures Runs(s, front + back) && After(s, front + back) == After(After(s, front), back)
    decreases |front|
  {
    if front == [] {
      assert front + back == back;
    } else {
      RunAppended(Next(s, front[0]), front[1..], back);
      RunCons(s, front[0], front[1..] + back);
      assert front + back == [front[0]] + (front[1..] + back);
    }
  }

  /** Steps the worker still has to take for the task at hand. */
  function Rank(w: Worker): nat {
    match w
    case Idle => 0
    case Finishing => 1
    case Opened(_, _) => 2
    case Opening(_) => 3
    case Closing(_, _) => 4
    case Detaching(_, _) => 5
  }

  /** What the worker does next when AAudio does its part. */
  function Favourable(s: State): Event
    requires !s.worker.Idle? || s.queue != []
  {
    match s.worker
    case Idle => Begin
    case Finishing => FinishRestart
    case Opened(_, _) => StartResult(true)
    case Opening(_) => OpenResult(true)
    case Closing(_, _) => CloseStream
    case Detaching(_, _) => Detach
  }

  lemma TaskStep(s: State)
    requires s.worker.Idle? && s.queue != []
    ensures MaySetNow(Begun(s)) == MaySetAfter(MaySetNow(s), s.queue[0])
  {
    match s.queue[0]
    case Init =>
    case Close =>
    case Restart =>
    case Adjust =>
    case VolumeHack =>
  }

  lemma WorkStep(s: State)
    requires Safe(s) && !s.worker.Idle?
    ensures Enabled(s, Favourable(s))
    ensures
      var t := Next(s, Favourable(s));
      && t.attached == s.attached && t.queue == s.queue && Rank(t.worker) < Rank(s.worker)
      && MaySetNow(t) == MaySetNow(s)
  {
  }

  lemma FavourableStep(s: State)
    requires Safe(s) && (!s.worker.Idle? || s.queue != [])
    ensures Enabled(s, Favourable(s)) && !ByCaller(Favourable(s))
    ensures
      var t := Next(s, Favourable(s));
      && Safe(t) && t.attached == s.attached
      && (|t.queue| < |s.queue| || (|t.queue| == |s.queue| && Rank(t.worker) < Rank(s.worker)))
      && MaySetAtEnd(MaySetNow(t), t.queue) == MaySetAtEnd(MaySetNow(s), s.queue)
  {
    if s.worker.Idle? {
      TaskStep(s);
      BeginKeepsStreams(s);
    } else {
      WorkStep(s);
    }
    StepIsSafe(s, Favourable(s));
  }

  /** The state when the worker has done all its tasks and AAudio has done its part. */
  ghost function Drained(s: State): State
    requires Safe(s)
    decreases |s.queue|, Rank(s.worker)
  {
    if s.worker.Idle? && s.queue == [] then s
    else
      FavourableStep(s);
      Drained(Next(s, Favourable(s)))
  }

  /** When AAudio does its part the worker empties its queue, and then the pointer is set exactly
      when the order of the tasks says it may be. */
  lemma {:induction false} WorkerDrains(s: State) returns (events: seq<Event>)
    requires Safe(s)
    ensures Runs(s, events) && (forall e | e in events :: !ByCaller(e)) && After(s, events) == Drained(s)
    ensures
      var t := Drained(s);
      && Safe(t) && t.worker.Idle? && t.queue == [] && t.attached == s.attached
      && (t.stream.Some? <==> MaySetAtEnd(MaySetNow(s), s.queue))
    decreases |s.queue|, Rank(s.worker)
  {
    if s.worker.Idle? && s.queue == [] {
      events := [];
    } else {
      var e := Favourable(s);
      FavourableStep(s);
      var rest := WorkerDrains(Next(s, e));
      RunCons(s, e, rest);
      events := [e] + rest;
    }
  }

  /** A session that begins while the pointer is still set loses that stream. */
  lemma SecondInitLeaks(s: State) returns (events: seq<Event>)
    requires Safe(s) && s.worker.Idle? && s.queue == [] && !s.attached && s.stream.Some?
    ensures Runs(s, events) && (forall e | e in events :: !e.SetDevice?)
    ensures !NoLeak(After(s, events))
  {
    var s1 := Next(s, Preprocess);
    var s2 := Next(s1, Begin);
    var s3 := Next(s2, OpenResult(true));
    var s4 := Next(s3, StartResult(true));
    assert s.stream.value in s4.open && s.stream.value !in Current(s4) + InHand(s4.worker);
    RunCons(s3, StartResult(true), []);
    RunCons(s2, OpenResult(true), [StartResult(true)]);
    events := [OpenResult(true)] + [StartResult(true)];
    RunCons(s1, Begin, events);
    events := [Begin] + events;
    RunCons(s, Preprocess, events);
    events := [Preprocess] + events;
  }

  /** After a device change that comes too late, some run in which AAudio does its part leaks a
      stream: the restart opens one behind the close, and the next session overwrites the pointer. */
  lemma LateDeviceLeaks(s: State) returns (events: seq<Event>)
    requires Safe(s) && LateDevice(s, SetDevice)
    ensures Runs(Next(s, SetDevice), events) && (forall e | e in events :: !e.SetDevice?)
    ensures !NoLeak(After(Next(s, SetDevice), events))
  {
    var s1 := Next(s, SetDevice);
    QueueExtended(MaySetNow(s), s.queue, Restart);
    StepIsSafe(s, SetDevice);
    var drain := WorkerDrains(s1);
    var leak := SecondInitLeaks(After(s1, drain));
    RunAppended(s1, drain, leak);
    events := drain + leak;
  }

  /** A run without further device changes after which some opened stream is neither current, in the
      worker's hand, nor closed. */
  ghost predicate LeaksLater(s: State, events: seq<Event>) {
    Runs(s, events) && (forall e | e in events :: !e.SetDevice?) && !NoLeak(After(s, events))
  }

  lemma {:induction false} QuietRunHasNoLateDevice(s: State, events: seq<Event>)
    requires Runs(s, events) && forall e | e in events :: !e.SetDevice?
    ensures NoLateDevice(s, events)
    decreases |events|
  {
    if events != [] {
      QuietRunHasNoLateDevice(Next(s, events[0]), events[1..]);
    }
  }

  /** Main result: from a tidy state, a step makes a leak possible exactly when it is a late device change. */
  lemma LeakExactlyAfterLateDevice(s: State, e: Event)
    requires Safe(s) && Tidy(s) && Enabled(s, e)
    ensures (exists events: seq<Event> :: LeaksLater(Next(s, e), events)) <==> LateDevice(s, e)
  {
    if LateDevice(s, e) {
      var events := LateDeviceLeaks(s);
      assert LeaksLater(Next(s, e), events);
    } else {
      StepIsSafe(s, e);
      StepIsTidy(s, e);
      forall events: seq<Event> ensures !LeaksLater(Next(s, e), events) {
        if Runs(Next(s, e), events) && forall x | x in events :: !x.SetDevice? {
          QuietRunHasNoLateDevice(Next(s, e), events);
          RunIsTidy(Next(s, e), events);
        }
      }
    }
  }

  // ---------------------------------------------------------------- what a callback brings about

  /** Neither the worker nor a queued task will touch the pointer. */
  predicate Untouched(s: State) { (s.worker.Idle? || s.worker.Finishing?) && Quiet(s.queue) }

  predicate Quiet(queue: seq<Task>) { forall t | t in queue :: t.Adjust? || t.VolumeHack? }

  lemma QuietCons(queue: seq<Task>)
    requires queue != []
    ensures Quiet(queue) <==> (queue[0].Adjust? || queue[0].VolumeHack?) && Quiet(queue[1..])
  {
    assert queue == [queue[0]] + queue[1..];
  }

  /** A stream that is neither current nor about to be published. */
  predicate Foreign(s: State, x: Stream) {
    x < s.next && s.stream != Some(x) && (s.worker.Opened? ==> s.worker.own != x)
  }

  lemma ForeignStays(s: State, x: Stream)
    requires Safe(s) && Foreign(s, x) && (!s.worker.Idle? || s.queue != [])
    ensures Enabled(s, Favourable(s)) && Foreign(Next(s, Favourable(s)), x)
  {
    if s.worker.Idle? { BeginKeepsStreams(s); }
  }

  lemma {:induction false} ForeignAtEnd(s: State, x: Stream)
    requires Safe(s) && Foreign(s, x)
    ensures Drained(s).stream != Some(x)
    decreases |s.queue|, Rank(s.worker)
  {
    if !s.worker.Idle? || s.queue != [] {
      FavourableStep(s);
      ForeignStays(s, x);
      ForeignAtEnd(Next(s, Favourable(s)), x);
    }
  }

  lemma CurrentStep(s: State)
    requires Safe(s) && s.stream.Some? && (!s.worker.Idle? || s.queue != [])
    ensures Enabled(s, Favourable(s))
    ensures
      var t := Next(s, Favourable(s));
      if t.stream == s.stream then Untouched(t) <==> Untouched(s) else !Untouched(s) && Foreign(t, s.stream.value)
  {
    if s.worker.Idle? {
      BeginKeepsStreams(s);
      CurrentTask(s);
    }
  }

  lemma CurrentTask(s: State)
    requires s.stream.Some? && s.worker.Idle? && s.queue != []
    ensures Untouched(Begun(s)) <==> Untouched(s)
  {
    BeginKeepsStreams(s);
    QuietCons(s.queue);
    match s.queue[0]
    case Init =>
    case Close =>
    case Restart =>
    case Adjust =>
    case VolumeHack =>
  }

  /** When AAudio does its part the current stream stays exactly when nothing will touch the pointer. */
  lemma {:induction false} StaysExactlyWhenUntouched(s: State)
    requires Safe(s) && s.stream.Some?
    ensures Drained(s).stream == s.stream <==> Untouched(s)
    decreases |s.queue|, Rank(s.worker)
  {
    if !s.worker.Idle? || s.queue != [] {
      FavourableStep(s);
      CurrentStep(s);
      var t := Next(s, Favourable(s));
      if t.stream == s.stream { StaysExactlyWhenUntouched(t); } else { ForeignAtEnd(t, s.stream.value); }
    }
  }

  /** A session keeps its stream: no close is pending that an initialization does not follow. */
  predicate Promised(s: State) {
    s.attached ==> MaySetAtEnd(false, s.queue) || (Close !in s.queue && !ClosesOnly(s.worker))
  }

  predicate ClosesOnly(w: Worker) { (w.Detaching? || w.Closing?) && !w.again }

  lemma {:induction false} CloseForgets(queue: seq<Task>)
    requires Close in queue
    ensures MaySetAtEnd(true, queue) == MaySetAtEnd(false, queue)
    decreases |queue|
  {
    if !queue[0].Close? {
      CloseForgets(queue[1..]);
    }
  }

  lemma {:induction false} SetWithoutClose(queue: seq<Task>)
    requires Close !in queue
    ensures MaySetAtEnd(true, queue)
    decreases |queue|
  {
    if queue != [] { SetWithoutClose(queue[1..]); }
  }

  lemma TaskIsPromised(s: State)
    requires Promised(s) && Enabled(s, Begin)
    ensures Promised(Begun(s))
  {
    BeginKeepsStreams(s);
    var rest := s.queue[1..];
    assert s.queue == [s.queue[0]] + rest;
    if Close in rest { CloseForgets(rest); }
    match s.queue[0]
    case Init =>
    case Close =>
    case Restart =>
    case Adjust =>
    case VolumeHack =>
  }

  lemma QueueingIsPromised(s: State, t: Task)
    requires Promised(s) && !t.Close?
    ensures Promised(Queued(s, t))
  {
    QueueExtended(false, s.queue, t);
  }

  lemma ProcessIsPromised(s: State, state: StreamState, deviceDiffers: bool, xRunsGrew: bool)
    requires Promised(s)
    ensures Promised(Processed(s, state, deviceDiffers, xRunsGrew))
  {
    QueueingIsPromised(s, Restart);
    QueueingIsPromised(s, VolumeHack);
    QueueingIsPromised(Queued(s, VolumeHack), Restart);
    QueueingIsPromised(Queued(s, VolumeHack), Adjust);
    QueueingIsPromised(s, Adjust);
  }

  lemma StepIsPromised(s: State, e: Event)
    requires Promised(s) && Enabled(s, e)
    ensures Promised(Next(s, e))
  {
    match e
    case Preprocess => QueueExtended(false, s.queue, Init);
    case Process(state, deviceDiffers, xRunsGrew) => ProcessIsPromised(s, state, deviceDiffers, xRunsGrew);
    case SetDevice => QueueingIsPromised(s, Restart);
    case Begin => TaskIsPromised(s);
    case _ =>
  }

  lemma {:induction false} RunIsPromised(s: State, events: seq<Event>)
    requires Promised(s) && Runs(s, events)
    ensures Promised(After(s, events))
    decreases |events|
  {
    if events != [] {
      StepIsPromised(s, events[0]);
      RunIsPromised(Next(s, events[0]), events[1..]);
    }
  }

  /** A session that has a stream has one, too, when AAudio has done its part. */
  lemma SessionKeepsStream(s: State)
    requires Safe(s) && Promised(s) && s.attached && s.stream.Some?
    ensures Drained(s).stream.Some?
  {
    var _ := WorkerDrains(s);
    NullIsBetter(MaySetNow(s), s.queue);
    if Close !in s.queue { SetWithoutClose(s.queue); }
  }

  /** Every session gets a stream when AAudio does its part. */
  lemma SessionGetsStream(s: State)
    requires Safe(s) && !s.attached
    ensures Safe(Next(s, Preprocess)) && Drained(Next(s, Preprocess)).stream.Some?
  {
    StepIsSafe(s, Preprocess);
    var _ := WorkerDrains(Next(s, Preprocess));
    QueueExtended(MaySetNow(s), s.queue, Init);
  }

  /** When the worker has nothing left to do, no request is held back. */
  lemma IdleClearsFlags(s: State)
    requires FlagsBacked(s) && s.worker.Idle? && s.queue == []
    ensures !s.restartScheduled && !s.adjusting
  {
  }

  /** A process callback that finds its stream disconnected leaves a restart queued or under way. */
  lemma DisconnectionRestarts(s: State, deviceDiffers: bool, xRunsGrew: bool)
    requires Safe(s) && FlagsBacked(s) && s.attached && s.stream.Some?
    ensures
      var t := Next(s, Process(Disconnected, deviceDiffers, xRunsGrew));
      Safe(t) && t.stream == s.stream && t.restartScheduled && (Restart in t.queue || Restarting(t.worker))
  {
    StepIsSafe(s, Process(Disconnected, deviceDiffers, xRunsGrew));
    StepBacksFlags(s, Process(Disconnected, deviceDiffers, xRunsGrew));
  }

  /** The worker has published a new stream and is about to clear the restart flag, with nothing queued
      that would replace it again. */
  predicate AboutToFinish(s: State) { s.worker.Finishing? && Quiet(s.queue) }

  /** Main result: a session whose stream is found disconnected gets another stream when AAudio does its
      part, exactly unless the callback falls into the last section of a restart; then the flag is still
      set, and it is the next callback that asks for a restart. */
  lemma DisconnectionReplacesStream(s: State, deviceDiffers: bool, xRunsGrew: bool)
    requires Safe(s) && FlagsBacked(s) && Promised(s) && s.attached && s.stream.Some?
    ensures
      var t := Next(s, Process(Disconnected, deviceDiffers, xRunsGrew));
      && Safe(t) && Drained(t).stream.Some?
      && (Drained(t).stream == s.stream <==> s.restartScheduled && AboutToFinish(s))
  {
    var e := Process(Disconnected, deviceDiffers, xRunsGrew);
    var t := Next(s, e);
    DisconnectionRestarts(s, deviceDiffers, xRunsGrew);
    StepIsPromised(s, e);
    SessionKeepsStream(t);
    StaysExactlyWhenUntouched(t);
    if !s.restartScheduled { assert Restart in t.queue && !Untouched(t); }
  }

  /** A noted check that finds another device, and a request for one, replace the stream. */
  lemma DeviceChangeReplacesStream(s: State, state: StreamState, xRunsGrew: bool)
    requires Safe(s) && s.attached && s.stream.Some? && !state.Disconnected? && s.checkDevice
    ensures
      var t := Next(s, Process(state, true, xRunsGrew));
      !t.checkDevice && Restart in t.queue && Safe(t) && Drained(t).stream != s.stream
  {
    var t := Next(s, Process(state, true, xRunsGrew));
    StepIsSafe(s, Process(state, true, xRunsGrew));
    assert t.queue[|t.queue| - 1] == Restart;
    StaysExactlyWhenUntouched(t);
  }

  lemma RequestReplacesStream(s: State)
    requires Safe(s)
    ensures s.stream.None? ==> Next(s, SetDevice).checkDevice
    ensures s.stream.Some? ==> Safe(Next(s, SetDevice)) && Drained(Next(s, SetDevice)).stream != s.stream
  {
    var t := Next(s, SetDevice);
    StepIsSafe(s, SetDevice);
    if s.stream.Some? {
      assert t.queue[|t.queue| - 1] == Restart && Restart in t.queue;
      StaysExactlyWhenUntouched(t);
    }
  }

  /** A check that finds the same device changes nothing else. */
  lemma SameDeviceKeepsStream(s: State, xRunsGrew: bool)
    requires s.attached && s.stream.Some? && s.checkDevice
    ensures Next(s, Process(OtherState, false, xRunsGrew)) == s.(checkDevice := false)
  {
  }

  /** Growing underruns leave an adjustment queued, once. */
  lemma UnderrunsAdjust(s: State, state: StreamState, deviceDiffers: bool)
    requires Safe(s) && FlagsBacked(s) && s.attached && s.stream.Some? && !state.Disconnected? && !s.checkDevice
    ensures
      var t := Next(s, Process(state, deviceDiffers, true));
      t.adjusting && Adjust in t.queue && (s.adjusting ==> Next(s, Process(state, deviceDiffers, false)) == t)
  {
    StepBacksFlags(s, Process(state, deviceDiffers, true));
  }

  /** Each started stream gets the volume workaround once. */
  lemma StartedStreamGetsHack(s: State, deviceDiffers: bool, xRunsGrew: bool)
    requires s.attached && s.stream.Some?
    ensures
      var t := Next(s, Process(Started, deviceDiffers, xRunsGrew));
      !t.hackRequired && (s.hackRequired ==> |s.queue| < |t.queue| && t.queue[|s.queue|] == VolumeHack)
    ensures s.worker.Opened? ==> Next(s, StartResult(true)).hackRequired
  {
  }

  // ---------------------------------------------------------------- destruction

  /** Only the worker acts, until it has nothing left to do: what `android_snd_write_uninit` leaves room for. */
  ghost predicate WindsDown(s: State, events: seq<Event>) {
    && Runs(s, events) && (forall e | e in events :: !ByCaller(e))
    && After(s, events).worker.Idle? && After(s, events).queue == []
  }

  lemma WorkerKeepsAttached(s: State, e: Event)
    requires Enabled(s, e) && !ByCaller(e)
    ensures Next(s, e).attached == s.attached
  {
    if e.Begin? { BeginKeepsStreams(s); }
  }

  lemma {:induction false} WorkerKeepsSession(s: State, events: seq<Event>)
    requires Runs(s, events) && Safe(s) && forall e | e in events :: !ByCaller(e)
    ensures After(s, events).attached == s.attached && NoLateDevice(s, events)
    decreases |events|
  {
    if events != [] {
      WorkerKeepsAttached(s, events[0]);
      StepIsSafe(s, events[0]);
      WorkerKeepsSession(Next(s, events[0]), events[1..]);
    }
  }

  /** After postprocess, whatever AAudio answers, a tidy filter ends with every stream closed. */
  lemma DestructionClosesAll(s: State, events: seq<Event>)
    requires Safe(s) && Tidy(s) && !s.attached && WindsDown(s, events)
    ensures After(s, events).open == {}
  {
    WorkerKeepsSession(s, events);
    RunIsTidy(s, events);
  }

  /** A destroyed filter has left a stream open. */
  ghost predicate LeavesOpen(s: State, events: seq<Event>) {
    WindsDown(s, events) && After(s, events).open != {}
  }

  /** Main result: outside a session, a step makes the filter's destruction leave a stream open exactly
      when it is a late device change. */
  lemma DestructionExactlyAfterLateDevice(s: State, e: Event)
    requires Safe(s) && Tidy(s) && Enabled(s, e) && !Next(s, e).attached
    ensures (exists events: seq<Event> :: LeavesOpen(Next(s, e), events)) <==> LateDevice(s, e)
  {
    StepIsSafe(s, e);
    StepIsTidy(s, e);
    if LateDevice(s, e) {
      QueueExtended(MaySetNow(s), s.queue, Restart);
      var events := WorkerDrains(Next(s, e));
      assert LeavesOpen(Next(s, e), events);
    } else {
      forall events: seq<Event> ensures !LeavesOpen(Next(s, e), events) {
        if WindsDown(Next(s, e), events) { DestructionClosesAll(Next(s, e), events); }
      }
    }
  }

  predicate OpensStream(t: Task) { t.Init? || t.Restart? }

  lemma {:induction false} NothingBehindLastClose(b: bool, queue: seq<Task>)
    requires Close !in queue && !MaySetAtEnd(b, queue)
    ensures !b && forall t | t in queue :: !OpensStream(t)
    decreases |queue|
  {
    if queue != [] { NothingBehindLastClose(MaySetAfter(b, queue[0]), queue[1..]); }
  }

  /** When the last close of a tidy filter is done, the worker opens no stream any more, so it does not
      look at the sound card that the destruction has released. */
  lemma CardIsLeftAlone(s: State)
    requires Tidy(s) && !s.attached && Close !in s.queue
    ensures !s.worker.Opening? && !s.worker.Opened? && forall t | t in s.queue :: !OpensStream(t)
  {
    NothingBehindLastClose(MaySetNow(s), s.queue);
  }

  // ---------------------------------------------------------------- the filter

  /** The context the threads share. Each method is one section under the mutex, or one stretch of a
      worker task between two of them; AAudio calls need an open stream. */
  class Player {
    var stream: Option<Stream>
    var restartScheduled: bool
    var adjustingBufferSize: bool
    var checkForDeviceChange: bool
    var volumeHackRequired: bool
    /** The queue of the worker thread. */
    var tasks: seq<Task>
    /** Where the worker and the ticker are, and what AAudio has opened. */
    var worker: Worker
    var attached: bool
    var open: set<Stream>
    var next: Stream

    ghost function Abstract(): State
      reads this
    {
      State(stream, open, worker, tasks, attached, restartScheduled, adjustingBufferSize, checkForDeviceChange,
            volumeHackRequired, next)
    }

    constructor ()
      ensures Abstract() == START
    {
      stream, open, worker, tasks, attached, next := None, {}, Idle, [], false, 0;
      restartScheduled, adjustingBufferSize, checkForDeviceChange, volumeHackRequired := false, false, false, false;
    }

    /** An AAudio call on a stream. */
    method Use(x: Stream)
      requires x in open
    {
    }

    method AddTask(t: Task)
      modifies `tasks
      ensures tasks == old(tasks) + [t]
    {
      tasks := tasks + [t];
    }

    method Preprocess()
      requires !attached
      modifies `tasks, `attached
      ensures Abstract() == Next(old(Abstract()), Event.Preprocess)
    {
      attached := true;
      AddTask(Init);
    }

    method Postprocess()
      requires attached
      modifies `tasks, `attached, `adjustingBufferSize
      ensures Abstract() == Next(old(Abstract()), Event.Postprocess)
    {
      attached, adjustingBufferSize := false, false;
      AddTask(Close);
    }

    method Process(state: StreamState, deviceDiffers: bool, xRunsGrew: bool)
      requires attached && Safe(Abstract())
      modifies `tasks, `restartScheduled, `adjustingBufferSize, `checkForDeviceChange, `volumeHackRequired
      ensures Abstract() == Next(old(Abstract()), Event.Process(state, deviceDiffers, xRunsGrew))
    {
      if stream.None? {
        return;
      }
      Use(stream.value);                                 // getState
      if state.Disconnected? {
        if !restartScheduled {
          AddTask(Restart);
          restartScheduled := true;
        }
        return;
      }
      if state.Started? && volumeHackRequired {
        AddTask(VolumeHack);
        volumeHackRequired := false;
      }
      if checkForDeviceChange {
        Use(stream.value);                               // getDeviceId
        if deviceDiffers { AddTask(Restart); }
        checkForDeviceChange := false;
      } else {
        Use(stream.value);                               // getXRunCount
        if xRunsGrew && !adjustingBufferSize {
          adjustingBufferSize := true;
          AddTask(Adjust);
        }
      }
    }

    method SetDeviceId()
      modifies `tasks, `checkForDeviceChange
      ensures Abstract() == Next(old(Abstract()), SetDevice)
    {
      if stream.Some? {
        AddTask(Restart);
      } else {
        checkForDeviceChange := true;
      }
    }

    /** The worker takes the next task. */
    method BeginTask()
      requires worker.Idle? && tasks != [] && Safe(Abstract())
      modifies `tasks, `worker, `adjustingBufferSize
      ensures Abstract() == Next(old(Abstract()), Begin)
    {
      var task := tasks[0];
      tasks := tasks[1..];
      match task {
        case Init => worker := Opening(false);
        case Close => if stream.Some? { worker := Detaching(stream.value, false); }
        case Restart => worker := if stream.Some? then Detaching(stream.value, true) else Opening(true);
        case Adjust =>
          if adjustingBufferSize && stream.Some? {
            Use(stream.value);                           // setBufferSizeInFrames
            adjustingBufferSize := false;
          }
        case VolumeHack =>
      }
    }

    method OpenStream(ok: bool)
      requires worker.Opening?
      modifies `worker, `open, `next
      ensures Abstract() == Next(old(Abstract()), OpenResult(ok))
    {
      if ok {
        worker := Opened(next, worker.again);
        open, next := open + {next}, next + 1;
      } else {
        worker := Done(worker.again);
      }
    }

    method StartStream(ok: bool)
      requires worker.Opened? && Safe(Abstract())
      modifies `worker, `open, `stream, `volumeHackRequired
      ensures Abstract() == Next(old(Abstract()), StartResult(ok))
    {
      Use(worker.own);                                   // requestStart
      if ok {
        volumeHackRequired := true;
        stream := Some(worker.own);
      } else {
        open := open - {worker.own};
      }
      worker := Done(worker.again);
    }

    method DetachStream()
      requires worker.Detaching?
      modifies `worker, `stream
      ensures Abstract() == Next(old(Abstract()), Detach)
    {
      stream := None;
      worker := Closing(worker.own, worker.again);
    }

    method CloseDetached()
      requires worker.Closing? && Safe(Abstract())
      modifies `worker, `open, `adjustingBufferSize
      ensures Abstract() == Next(old(Abstract()), CloseStream)
    {
      adjustingBufferSize := false;
      Use(worker.own);                                   // close
      open := open - {worker.own};
      worker := if worker.again then Opening(true) else Idle;
    }

    method EndRestart()
      requires worker.Finishing?
      modifies `worker, `restartScheduled
      ensures Abstract() == Next(old(Abstract()), FinishRestart)
    {
      if restartScheduled { restartScheduled := false; }
      worker := Idle;
    }
  }
}
