/** The WASAPI writer under interleaving (mswasapi.cpp). Its preprocess and postprocess do not take the
    filter's lock, so the setters of rate and channels, which do, run between the parts of an
    activation. A step is what one thread does between two calls to the system. */
module WasapiWriter {
  import opened Options
  import opened Wasapi

  // ---------------------------------------------------------------- the threads

  /** Where the ticker is in `activate`; `again` marks the second round, on a new client. */
  datatype Phase =
    | Calm
    | Entering(again: bool)                      // about to read the targets
    | Asking(proposed: Format, again: bool)      // asks the system for the format built from them
    | Initializing(used: Format, again: bool)    // agreed on a format, about to call Initialize
    | Replacing                                  // has destroyed a client that was in use
    | Taking(used: Format)                       // Initialize succeeded, about to take the targets up

  datatype Target = Rate | Channels

  /** Where a caller is in `setRate` or `setNChannels`; the lock admits one at a time. */
  datatype Setter =
    | Idle
    | Tested(target: Target, value: int)         // has seen a client
    | Moved(target: Target, previous: int)       // has moved the target, about to call the client
    | Asked(target: Target, previous: int)       // has called the client

  datatype System = System(filter: State, phase: Phase, setter: Setter)

  datatype Step =
    | Process(arrivals: Arrivals, mix: Option<Format>, restart: Restart)
    | Postprocess
    | Notify(notice: Notice)
    | Enter(startOk: bool) | Build | Answer(query: Query) | InitializeResult(initialized: Initialized)
    | Recreate(creation: Creation) | TakeUp(bufferSizeOk: bool, service: Option<Client>, startOk: bool)
    | Test(target: Target, value: int) | MoveTarget | Ask | Finish(support: Support)

  predicate OfSetter(e: Step) { e.Test? || e.MoveTarget? || e.Ask? || e.Finish? }

  /** The ticker takes one callback after the other; process and the setters exclude each other. */
  predicate Enabled(s: System, e: Step) {
    match e
    case Process(_, _, _) => s.phase.Calm? && s.setter.Idle?
    case Postprocess => s.phase.Calm?
    case Notify(_) => true
    case Enter(_) => s.phase.Calm?
    case Build => s.phase.Entering?
    case Answer(_) => s.phase.Asking?
    case InitializeResult(_) => s.phase.Initializing?
    case Recreate(_) => s.phase.Replacing?
    case TakeUp(_, _, _) => s.phase.Taking?
    case Test(_, _) => s.setter.Idle?
    case MoveTarget => s.setter.Tested?
    case Ask => s.setter.Moved?
    case Finish(_) => s.setter.Asked?
  }

  function Aim(w: Wish, t: Target): int { if t.Rate? then w.rate else w.channels }

  function Aimed(w: Wish, t: Target, value: int): Wish {
    if t.Rate? then w.(rate := value) else w.(channels := value)
  }

  function Forced(w: Wish, t: Target): Wish { if t.Rate? then w.(forceRate := ToDo) else w.(forceChannels := ToDo) }

  // The parts of `activate`.

  function Entered(s: System, startOk: bool): System {
    if s.filter.link.client.None? then s
    else if s.filter.link.activated then s.(filter := s.filter.(link := Started(s.filter.link, startOk)))
    else s.(phase := Entering(false))
  }

  function Answered(s: System, q: Query): System
    requires s.phase.Asking?
  {
    var used := Agreed(s.phase.proposed, q);
    s.(filter := s.filter.(wish := Adjusted(s.filter.wish, q, used)),
       phase := if used.None? then Calm else Initializing(used.value, s.phase.again))
  }

  function AfterInitialize(s: System, answer: Initialized): System
    requires s.phase.Initializing?
  {
    if answer.Success? then
      s.(filter := s.filter.(data := s.filter.data.(inUse := Some(s.phase.used))), phase := Taking(s.phase.used))
    else if answer.AlreadyInitialized? && !s.phase.again then
      s.(filter := s.filter.(link := s.filter.link.(client := None)), phase := Replacing)
    else s.(phase := Calm)
  }

  function Recreated(s: System, c: Creation): System {
    s.(filter := s.filter.(link := s.filter.link.(client := c.client)),
       phase := if Creates(None, c) then Entering(true) else Calm)
  }

  function UpTaken(s: System, bufferSizeOk: bool, service: Option<Client>, startOk: bool): System
    requires s.phase.Taking?
  {
    var f := s.filter;
    var link := Linked(f.link, bufferSizeOk, service);
    s.(filter := f.(link := Started(link, startOk),
                    data := Data(f.data.bits, s.phase.used.blockAlign, f.wish.rate, f.wish.channels, f.data.inUse)),
       phase := Calm)
  }

  // The parts of a setter.

  function TestedBy(s: System, t: Target, value: int): System {
    if Aim(s.filter.wish, t) != value && s.filter.link.client.Some? then s.(setter := Tested(t, value)) else s
  }

  function TargetMoved(s: System): System
    requires s.setter.Tested?
  {
    var t := s.setter.target;
    s.(filter := s.filter.(wish := Aimed(s.filter.wish, t, s.setter.value)), setter := Moved(t, Aim(s.filter.wish, t)))
  }

  function Finished(s: System, answer: Support): System
    requires s.setter.Asked?
  {
    var f, t := s.filter, s.setter.target;
    s.(filter := if answer.Supported? then f.(wish := Forced(f.wish, t), flags := f.flags.(scheduled := true))
                 else f.(wish := Aimed(f.wish, t, s.setter.previous)),
       setter := Idle)
  }

  function Next(s: System, e: Step): System
    requires Enabled(s, e)
  {
    match e
    case Process(n, mix, r) => s.(filter := Wasapi.Next(s.filter, Callback.Process(n, mix, r)))
    case Postprocess => s.(filter := Wasapi.Next(s.filter, Callback.Postprocess))
    case Notify(n) => s.(filter := Wasapi.Next(s.filter, Notified(n)))
    case Enter(startOk) => Entered(s, startOk)
    case Build => s.(phase := Asking(Built(s.filter.wish, s.filter.data), s.phase.again))
    case Answer(q) => Answered(s, q)
    case InitializeResult(answer) => AfterInitialize(s, answer)
    case Recreate(c) => Recreated(s, c)
    case TakeUp(bufferSizeOk, service, startOk) => UpTaken(s, bufferSizeOk, service, startOk)
    case Test(t, value) => TestedBy(s, t, value)
    case MoveTarget => TargetMoved(s)
    case Ask => s.(setter := Asked(s.setter.target, s.setter.previous))
    case Finish(answer) => Finished(s, answer)
  }

  ghost predicate Runs(s: System, events: seq<Step>)
    decreases |events|
  {
    events == [] || (Enabled(s, events[0]) && Runs(Next(s, events[0]), events[1..]))
  }

  ghost function After(s: System, events: seq<Step>): System
    requires Runs(s, events)
    decreases |events|
  {
    if events == [] then s else After(Next(s, events[0]), events[1..])
  }

  lemma RunCons(s: System, e: Step, events: seq<Step>)
    requires Enabled(s, e) && Runs(Next(s, e), events)
    ensures Runs(s, [e] + events) && After(s, [e] + events) == After(Next(s, e), events)
  {
    assert ([e] + events)[1..] == events;
  }

  /** A writer after its constructor and `init`. */
  function Beginning(rate: int, channels: int, c: Creation, mix: Option<Format>): System {
    System(Wasapi.Next(Initial(rate, channels), Init(c, mix)), Calm, Idle)
  }

  // ---------------------------------------------------------------- the ticker never meets a null client

  /** The life cycle, and inside an activation a client that only the ticker replaces. */
  predicate Held(s: System) {
    && LifeCycle(s.filter.link, s.filter.data)
    && (!s.phase.Calm? ==> !s.filter.link.activated && (s.filter.link.client.Some? <==> !s.phase.Replacing?))
    && (s.phase.Taking? ==> s.filter.data.inUse == Some(s.phase.used))
  }

  /** The steps in which the ticker calls its client. */
  predicate CallsClient(e: Step) { e.Build? || e.Answer? || e.InitializeResult? || e.TakeUp? }

  lemma TickerHolds(s: System, e: Step)
    requires Held(s) && Enabled(s, e) && !OfSetter(e) && !e.Process?
    ensures Held(Next(s, e))
  {
  }

  lemma SetterHolds(s: System, e: Step)
    requires Held(s) && Enabled(s, e) && OfSetter(e)
    ensures Held(Next(s, e)) && Next(s, e).filter.link == s.filter.link && Next(s, e).filter.data == s.filter.data
    ensures Next(s, e).phase == s.phase
  {
  }

  lemma StepHolds(s: System, e: Step)
    requires Held(s) && Enabled(s, e)
    ensures Held(Next(s, e)) && (CallsClient(e) ==> s.filter.link.client.Some?)
  {
    if OfSetter(e) {
      SetterHolds(s, e);
    } else if e.Process? {
      StepKeepsLifeCycle(s.filter, Callback.Process(e.arrivals, e.mix, e.restart));
    } else {
      TickerHolds(s, e);
    }
  }

  /** Main result: in every interleaving started implies activated, activated implies both clients, and
      the ticker calls a client only when there is one. */
  lemma {:induction false} RunHolds(s: System, events: seq<Step>)
    requires Held(s) && Runs(s, events)
    ensures Held(After(s, events))
    decreases |events|
  {
    if events != [] {
      StepHolds(s, events[0]);
      RunHolds(Next(s, events[0]), events[1..]);
    }
  }

  // ---------------------------------------------------------------- the setter may

  /** A setter is about to call a client that is gone. */
  predicate MeetsNull(s: System) { s.setter.Moved? && s.filter.link.client.None? }

  predicate BeforeCall(s: System) { s.setter.Tested? || s.setter.Moved? }

  predicate Guarded(s: System) { BeforeCall(s) ==> s.filter.link.client.Some? }

  /** The ticker destroys a client that turns out to be in use. */
  predicate Replaces(s: System, e: Step) {
    e.InitializeResult? && e.initialized.AlreadyInitialized? && s.phase.Initializing? && !s.phase.again
  }

  lemma StepGuards(s: System, e: Step)
    requires Held(s) && Guarded(s) && Enabled(s, e)
    ensures Guarded(Next(s, e)) <==> !(BeforeCall(s) && Replaces(s, e))
  {
    if OfSetter(e) { SetterHolds(s, e); }
  }

  predicate NoClientInUse(events: seq<Step>) {
    forall e | e in events :: !(e.InitializeResult? && e.initialized.AlreadyInitialized?)
  }

  lemma {:induction false} RunGuards(s: System, events: seq<Step>)
    requires Held(s) && Guarded(s) && Runs(s, events) && NoClientInUse(events)
    ensures Guarded(After(s, events))
    decreases |events|
  {
    if events != [] {
      assert events[0] in events;
      StepGuards(s, events[0]);
      StepHolds(s, events[0]);
      RunGuards(Next(s, events[0]), events[1..]);
    }
  }

  ghost predicate ReachesNull(s: System, events: seq<Step>) {
    Runs(s, events) && NoClientInUse(events) && MeetsNull(After(s, events))
  }

  /** Main result: a step lets a setter call a null client exactly when it destroys a client in use
      between the setter's test and its call. */
  lemma NullExactlyWhenReplaced(s: System, e: Step)
    requires Held(s) && Guarded(s) && Enabled(s, e)
    ensures (exists events: seq<Step> :: ReachesNull(Next(s, e), events)) <==> BeforeCall(s) && Replaces(s, e)
  {
    StepGuards(s, e);
    StepHolds(s, e);
    var t := Next(s, e);
    if BeforeCall(s) && Replaces(s, e) {
      if t.setter.Tested? {
        RunCons(t, MoveTarget, []);
        assert ReachesNull(t, [MoveTarget] + []);
      } else {
        assert ReachesNull(t, []);
      }
    } else {
      forall events: seq<Step> ensures !ReachesNull(t, events) {
        if Runs(t, events) && NoClientInUse(events) { RunGuards(t, events); }
      }
    }
  }

  // ---------------------------------------------------------------- the data and the format in use

  /** The format the ticker will take the targets to be. */
  function Pending(p: Phase): Option<(int, int)> {
    match p
    case Asking(proposed, _) => Some((proposed.rate, proposed.channels))
    case Initializing(used, _) => Some((used.rate, used.channels))
    case Taking(used) => Some((used.rate, used.channels))
    case _ => None
  }

  predicate Aligned(s: System) {
    Pending(s.phase).Some? ==> Pending(s.phase).value == (s.filter.wish.rate, s.filter.wish.channels)
  }

  predicate Clear(s: System) { Aligned(s) && Sound(s.filter) }

  /** A setter changes a target, by moving it or by taking an unsupported move back, while the ticker is
      between reading the targets and taking them up. */
  predicate Intrudes(s: System, e: Step)
    requires Enabled(s, e)
  {
    && Pending(s.phase).Some?
    && match e
       case MoveTarget => s.setter.value != Aim(s.filter.wish, s.setter.target)
       case Finish(answer) => !answer.Supported? && s.setter.previous != Aim(s.filter.wish, s.setter.target)
       case _ => false
  }

  lemma SetterIsClear(s: System, e: Step)
    requires Held(s) && Clear(s) && Enabled(s, e) && OfSetter(e)
    ensures Clear(Next(s, e)) <==> !Intrudes(s, e)
  {
    SetterHolds(s, e);
  }

  lemma TickerIsClear(s: System, e: Step)
    requires Held(s) && Clear(s) && Enabled(s, e) && !OfSetter(e) && !e.Process?
    ensures Clear(Next(s, e))
  {
  }

  lemma StepIsClear(s: System, e: Step)
    requires Held(s) && Clear(s) && Enabled(s, e)
    ensures Clear(Next(s, e)) <==> !Intrudes(s, e)
  {
    if OfSetter(e) {
      SetterIsClear(s, e);
    } else if e.Process? {
      StepDescribes(s.filter, Callback.Process(e.arrivals, e.mix, e.restart));
    } else {
      TickerIsClear(s, e);
    }
  }

  ghost predicate NoIntrusion(s: System, events: seq<Step>)
    requires Runs(s, events)
    decreases |events|
  {
    events == [] || (!Intrudes(s, events[0]) && NoIntrusion(Next(s, events[0]), events[1..]))
  }

  /** Without intrusions the data is described by the format in use, in every interleaving. */
  lemma {:induction false} RunIsClear(s: System, events: seq<Step>)
    requires Held(s) && Clear(s) && Runs(s, events) && NoIntrusion(s, events)
    ensures Clear(After(s, events))
    decreases |events|
  {
    if events != [] {
      StepIsClear(s, events[0]);
      StepHolds(s, events[0]);
      RunIsClear(Next(s, events[0]), events[1..]);
    }
  }

  predicate WithoutSetters(events: seq<Step>) { forall e | e in events :: !OfSetter(e) }

  lemma {:induction false} NoSetterNoIntrusion(s: System, events: seq<Step>)
    requires Runs(s, events) && WithoutSetters(events)
    ensures NoIntrusion(s, events)
    decreases |events|
  {
    if events != [] {
      assert events[0] in events;
      NoSetterNoIntrusion(Next(s, events[0]), events[1..]);
    }
  }

  /** The ticker's steps to the end of an activation in which the system agrees to everything. */
  function Onward(p: Phase): seq<Step> {
    match p
    case Asking(_, _) =>
      [Answer(Query(Supported, Supported))] + ([InitializeResult(Success)] + [TakeUp(true, Some(0), true)])
    case Initializing(_, _) => [InitializeResult(Success)] + [TakeUp(true, Some(0), true)]
    case Taking(_) => [TakeUp(true, Some(0), true)]
    case _ => []
  }

  lemma TakingShows(s: System)
    requires Held(s) && !Aligned(s) && s.phase.Taking?
    ensures Runs(s, Onward(s.phase)) && !Sound(After(s, Onward(s.phase)).filter)
  {
    RunCons(s, TakeUp(true, Some(0), true), []);
  }

  lemma InitializingShows(s: System)
    requires Held(s) && !Aligned(s) && s.phase.Initializing?
    ensures Runs(s, Onward(s.phase)) && !Sound(After(s, Onward(s.phase)).filter)
  {
    var t := Next(s, InitializeResult(Success));
    TakingShows(t);
    RunCons(s, InitializeResult(Success), Onward(t.phase));
  }

  /** Targets that are not those of the pending format end up in the data. */
  lemma MisalignmentShows(s: System)
    requires Held(s) && !Aligned(s)
    ensures Runs(s, Onward(s.phase)) && WithoutSetters(Onward(s.phase)) && !Sound(After(s, Onward(s.phase)).filter)
  {
    match s.phase
    case Asking(_, _) =>
      var q := Query(Supported, Supported);
      InitializingShows(Next(s, Answer(q)));
      RunCons(s, Answer(q), Onward(Next(s, Answer(q)).phase));
    case Initializing(_, _) => InitializingShows(s);
    case Taking(_) => TakingShows(s);
  }

  ghost predicate MisdescribesLater(s: System, events: seq<Step>) {
    Runs(s, events) && WithoutSetters(events) && !Sound(After(s, events).filter)
  }

  /** Main result: a step makes it possible that the data is misdescribed, without a further step of a
      setter, exactly when it intrudes on an activation. */
  lemma MisdescribedExactlyAfterIntrusion(s: System, e: Step)
    requires Held(s) && Clear(s) && Enabled(s, e)
    ensures (exists events: seq<Step> :: MisdescribesLater(Next(s, e), events)) <==> Intrudes(s, e)
  {
    var t := Next(s, e);
    StepIsClear(s, e);
    StepHolds(s, e);
    if Intrudes(s, e) {
      assert t.filter.data == s.filter.data && t.filter.link == s.filter.link by { SetterHolds(s, e); }
      MisalignmentShows(t);
      assert MisdescribesLater(t, Onward(t.phase));
    } else {
      forall events: seq<Step> ensures !MisdescribesLater(t, events) {
        if Runs(t, events) && WithoutSetters(events) {
          NoSetterNoIntrusion(t, events);
          RunIsClear(t, events);
        }
      }
    }
  }

  /** Both results apply to all runs of a new writer. */
  lemma BeginningIsSound(rate: int, channels: int, c: Creation, mix: Option<Format>)
    ensures Held(Beginning(rate, channels, c, mix)) && Clear(Beginning(rate, channels, c, mix))
    ensures Guarded(Beginning(rate, channels, c, mix))
  {
  }

  // ---------------------------------------------------------------- repair

  /** A change that the next update will see. */
  predicate Marked(f: State) { f.flags.scheduled && (f.wish.forceRate == ToDo || f.wish.forceChannels == ToDo) }

  /** Whatever is wrong, a setter is still at it or an update is due. */
  predicate Repairable(s: System) { !Clear(s) ==> s.setter.Moved? || s.setter.Asked? || Marked(s.filter) }

  /** The system supports what the setters ask for, and tells its mix format. */
  predicate Cooperative(e: Step) { (e.Finish? ==> e.support.Supported?) && (e.Process? ==> e.mix.Some?) }

  lemma ProcessIsRepairable(f: State, n: Arrivals, mix: Option<Format>, r: Restart)
    requires LifeCycle(f.link, f.data) && (!Sound(f) ==> Marked(f)) && mix.Some?
    ensures
      var g := Wasapi.Next(f, Callback.Process(n, mix, r));
      !Sound(g) ==> Marked(g) && !g.flags.deviceAvailable
  {
    if Sound(f) {
      StepDescribes(f, Callback.Process(n, mix, r));
    } else {
      RepairedExactlyByRestart(f, n, mix, r);
    }
  }

  lemma StepIsRepairable(s: System, e: Step)
    requires Held(s) && Repairable(s) && Enabled(s, e) && Cooperative(e)
    ensures Repairable(Next(s, e))
  {
    if e.Process? { ProcessIsRepairable(s.filter, e.arrivals, e.mix, e.restart); }
  }

  /** Main result: if no setter is refused, data that is misdescribed is repaired by the next process
      callback that finds a device, in every interleaving. */
  lemma {:induction false} RunIsRepaired(s: System, events: seq<Step>, n: Arrivals, mix: Option<Format>, r: Restart)
    requires Held(s) && Repairable(s) && Runs(s, events) && (forall e | e in events :: Cooperative(e))
    requires Enabled(After(s, events), Step.Process(n, mix, r)) && mix.Some?
    ensures
      var t := Next(After(s, events), Step.Process(n, mix, r));
      t.filter.flags.deviceAvailable ==> Sound(t.filter)
    decreases |events|
  {
    if events == [] {
      ProcessIsRepairable(s.filter, n, mix, r);
    } else {
      assert events[0] in events;
      StepHolds(s, events[0]);
      StepIsRepairable(s, events[0]);
      RunIsRepaired(Next(s, events[0]), events[1..], n, mix, r);
    }
  }

  // ---------------------------------------------------------------- a refused rate that stays

  const MONO: Format := Format(8000, 1, 16, 2)

  /** A new writer activates as far as Initialize. */
  const ACTIVATES: seq<Step> :=
    [Enter(true)] + ([Build] + ([Answer(Query(Supported, Supported))] + [InitializeResult(Success)]))

  /** A caller asks for a rate the device refuses, and the activation goes on in between. */
  const REFUSED: seq<Step> :=
    [Test(Rate, 48000)] + ([MoveTarget] + ([TakeUp(true, Some(0), true)] + ([Ask] + [Finish(Unsupported)])))

  /** A filter with the default targets, nothing forced and nothing scheduled. */
  function Writer(link: Link, data: Data): State {
    State(link, Wish(8000, 1, DoNothing, DoNothing), data, Flags(false, false, true))
  }

  const FRESH: System :=
    System(Writer(Link(Some(0), None, false, false), Data(16, 2, 0, 0, None)), Calm, Idle)

  const INITIALIZED: System :=
    System(Writer(Link(Some(0), None, false, false), Data(16, 2, 0, 0, Some(MONO))), Taking(MONO), Idle)

  /** It plays at the refused rate, and nothing is scheduled that would correct it. */
  const STUCK: System :=
    System(Writer(Link(Some(0), Some(0), true, true), Data(16, 2, 48000, 1, Some(MONO))), Calm, Idle)

  lemma NewWriterInitializes()
    ensures Runs(FRESH, ACTIVATES) && After(FRESH, ACTIVATES) == INITIALIZED
  {
    var s1 := FRESH.(phase := Entering(false));
    var s2 := FRESH.(phase := Asking(MONO, false));
    var s3 := FRESH.(phase := Initializing(MONO, false));
    RunCons(s3, InitializeResult(Success), []);
    RunCons(s2, Answer(Query(Supported, Supported)), [InitializeResult(Success)]);
    RunCons(s1, Build, [Answer(Query(Supported, Supported))] + [InitializeResult(Success)]);
    RunCons(FRESH, Enter(true), [Build] + ([Answer(Query(Supported, Supported))] + [InitializeResult(Success)]));
  }

  lemma RefusalInterleaves()
    ensures Runs(INITIALIZED, REFUSED) && After(INITIALIZED, REFUSED) == STUCK
  {
    var s1 := INITIALIZED.(setter := Tested(Rate, 48000));
    var moved := Wish(48000, 1, DoNothing, DoNothing);
    var s2 := INITIALIZED.(filter := INITIALIZED.filter.(wish := moved), setter := Moved(Rate, 8000));
    var s3 := STUCK.(filter := STUCK.filter.(wish := moved), setter := Moved(Rate, 8000));
    var s4 := s3.(setter := Asked(Rate, 8000));
    RunCons(s4, Finish(Unsupported), []);
    RunCons(s3, Ask, [Finish(Unsupported)]);
    RunCons(s2, TakeUp(true, Some(0), true), [Ask] + [Finish(Unsupported)]);
    var back := [TakeUp(true, Some(0), true)] + ([Ask] + [Finish(Unsupported)]);
    RunCons(s1, MoveTarget, back);
    RunCons(INITIALIZED, Test(Rate, 48000), [MoveTarget] + back);
  }

  lemma {:induction false} RunAppended(s: System, front: seq<Step>, back: seq<Step>)
    requires Runs(s, front) && Runs(After(s, front), back)
    ensures Runs(s, front + back) && After(s, front + back) == After(After(s, front), back)
    decreases |front|
  {
    if front == [] {
      assert front + back == back;
    } else {
      RunAppended(Next(s, front[0]), front[1..], back);
      RunCons(s, front[0], front[1..] + back);
      assert front + back == [front[0]] + (front[1..] + back);
    }
  }

  /** A run of a new writer that leaves it playing at a refused rate: no process callback corrects it
      until something else schedules an update. */
  lemma RefusedRateStays(mix: Option<Format>, r: Restart)
    ensures
      var s := Beginning(0, 0, Creation(Some(0), true), None);
      Runs(s, ACTIVATES + REFUSED) && After(s, ACTIVATES + REFUSED) == STUCK
    ensures !Sound(STUCK.filter)
    ensures
      var quiet := Notice(false, None);
      Next(STUCK, Step.Process(Arrivals(quiet, quiet, quiet), mix, r)) == STUCK
  {
    assert Beginning(0, 0, Creation(Some(0), true), None) == FRESH;
    NewWriterInitializes();
    RefusalInterleaves();
    RunAppended(FRESH, ACTIVATES, REFUSED);
  }

  // ---------------------------------------------------------------- a null client that is called

  /** A caller tests the client, and then the system reports it as in use. */
  const REPLACED: seq<Step> :=
    [Enter(true)] + ([Build] + ([Answer(Query(Supported, Supported))] +
      ([Test(Rate, 48000)] + ([InitializeResult(AlreadyInitialized)] + [MoveTarget]))))

  lemma NullIsReached()
    ensures Runs(FRESH, REPLACED) && MeetsNull(After(FRESH, REPLACED))
  {
    var s1 := FRESH.(phase := Entering(false));
    var s2 := FRESH.(phase := Asking(MONO, false));
    var s3 := FRESH.(phase := Initializing(MONO, false));
    var s4 := s3.(setter := Tested(Rate, 48000));
    var s5 := Next(s4, InitializeResult(AlreadyInitialized));
    RunCons(s5, MoveTarget, []);
    RunCons(s4, InitializeResult(AlreadyInitialized), [MoveTarget]);
    var back := [InitializeResult(AlreadyInitialized)] + [MoveTarget];
    RunCons(s3, Test(Rate, 48000), back);
    RunCons(s2, Answer(Query(Supported, Supported)), [Test(Rate, 48000)] + back);
    RunCons(s1, Build, [Answer(Query(Supported, Supported))] + ([Test(Rate, 48000)] + back));
    RunCons(FRESH, Enter(true), [Build] + ([Answer(Query(Supported, Supported))] + ([Test(Rate, 48000)] + back)));
  }

  // ---------------------------------------------------------------- without interleaving

  /** A setter that nothing interrupts is the setter of the filter. */
  lemma SetterAlone(s: System, t: Target, value: int, answer: Support) returns (events: seq<Step>)
    requires s.setter.Idle?
    ensures Runs(s, events) && (forall e | e in events :: OfSetter(e))
    ensures After(s, events) ==
      s.(filter := if t.Rate? then RateSet(s.filter, value, answer) else ChannelsSet(s.filter, value, answer))
  {
    var s1 := Next(s, Test(t, value));
    if s1.setter.Tested? {
      var s2 := Next(s1, MoveTarget);
      var s3 := Next(s2, Ask);
      RunCons(s3, Finish(answer), []);
      RunCons(s2, Ask, [Finish(answer)]);
      RunCons(s1, MoveTarget, [Ask] + [Finish(answer)]);
      RunCons(s, Test(t, value), [MoveTarget] + ([Ask] + [Finish(answer)]));
      events := [Test(t, value)] + ([MoveTarget] + ([Ask] + [Finish(answer)]));
    } else {
      RunCons(s, Test(t, value), []);
      events := [Test(t, value)] + [];
    }
  }

  /** What a round of query and Initialize, begun with the targets at hand, comes to. */
  lemma RoundAlone(s: System, q: Query, answer: Initialized) returns (events: seq<Step>)
    requires s.phase.Entering?
    ensures Runs(s, events) && WithoutSetters(events)
    ensures
      var used := Agreed(Built(s.filter.wish, s.filter.data), q);
      var t := s.(filter := s.filter.(wish := Adjusted(s.filter.wish, q, used)));
      After(s, events) ==
        if used.None? then t.(phase := Calm)
        else AfterInitialize(t.(phase := Initializing(used.value, s.phase.again)), answer)
  {
    var s1 := Next(s, Build);
    var s2 := Next(s1, Answer(q));
    if s2.phase.Initializing? {
      RunCons(s2, InitializeResult(answer), []);
      RunCons(s1, Answer(q), [InitializeResult(answer)]);
      RunCons(s, Build, [Answer(q)] + [InitializeResult(answer)]);
      events := [Build] + ([Answer(q)] + [InitializeResult(answer)]);
    } else {
      RunCons(s1, Answer(q), []);
      RunCons(s, Build, [Answer(q)]);
      events := [Build] + [Answer(q)];
    }
  }

  /** The end of an activation from the state behind Initialize. */
  lemma EndAlone(s: System, a: Activation, startOk: bool) returns (events: seq<Step>)
    requires s.phase.Taking?
    ensures Runs(s, events) && WithoutSetters(events)
    ensures After(s, events) == UpTaken(s, a.bufferSizeOk, a.service, startOk)
  {
    RunCons(s, TakeUp(a.bufferSizeOk, a.service, startOk), []);
    events := [TakeUp(a.bufferSizeOk, a.service, startOk)] + [];
  }

  /** The second round, on a new client. */
  lemma SecondRoundAlone(s: System, a: Activation, startOk: bool) returns (events: seq<Step>)
    requires s.phase.Replacing? && !s.filter.link.activated
    ensures Runs(s, events) && WithoutSetters(events) && After(s, events).phase.Calm?
    ensures After(s, events) ==
      var f, n := s.filter, a.negotiation;
      var b := Negotiated2(f.wish, f.data, n);
      if b.used.None? then System(f.(link := f.link.(client := b.client), wish := b.wish), Calm, s.setter)
      else System(StartedFilter(TakenUp(f, b, a), startOk), Calm, s.setter)
  {
    var n := a.negotiation;
    var s1 := Next(s, Recreate(n.creation));
    if s1.phase.Calm? {
      RunCons(s, Recreate(n.creation), []);
      events := [Recreate(n.creation)] + [];
    } else {
      var round := RoundAlone(s1, n.query2, n.initialized2);
      var s2 := After(s1, round);
      RunCons(s, Recreate(n.creation), round);
      events := [Recreate(n.creation)] + round;
      if s2.phase.Taking? {
        var end := EndAlone(s2, a, startOk);
        RunAppended(s, events, end);
        events := events + end;
      }
    }
  }

  function Negotiated2(w: Wish, d: Data, n: Negotiation): Bargain {
    if !Creates(None, n.creation) then Bargain(n.creation.client, w, None)
    else
      var used2 := Agreed(Built(w, d), n.query2);
      Bargain(n.creation.client, Adjusted(w, n.query2, used2), if n.initialized2.Success? then used2 else None)
  }

  function StartedFilter(f: State, startOk: bool): State { f.(link := Started(f.link, startOk)) }

  /** Main result: an activation that no setter interrupts is the activation of the filter, whatever the
      system answers. */
  lemma ActivationAlone(s: System, a: Activation, startOk: bool) returns (events: seq<Step>)
    requires Held(s) && s.phase.Calm?
    ensures Runs(s, events) && WithoutSetters(events)
    ensures After(s, events) == s.(filter := Wasapi.Next(s.filter, Preprocess(a, startOk)))
  {
    var n := a.negotiation;
    var s1 := Next(s, Enter(startOk));
    if s1.phase.Calm? {
      RunCons(s, Enter(startOk), []);
      events := [Enter(startOk)] + [];
    } else {
      var round := RoundAlone(s1, n.query, n.initialized);
      var s2 := After(s1, round);
      RunCons(s, Enter(startOk), round);
      events := [Enter(startOk)] + round;
      var end := [];
      if s2.phase.Taking? {
        end := EndAlone(s2, a, startOk);
      } else if s2.phase.Replacing? {
        end := SecondRoundAlone(s2, a, startOk);
      }
      RunAppended(s, events, end);
      events := events + end;
    }
  }
}
