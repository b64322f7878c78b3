/** The parallel test-suite scheduler (tester.c, POSIX): a loop that forks at most one suite and
    reaps at most one child per turn, within a bound on the total weight of the running suites.
    What `fork`, `waitpid` and the clock answer in each turn is an input. */
module Scheduler {
  import opened Options

  // ---------------------------------------------------------------- configuration

  datatype Suite = Suite(name: string, cpuWeight: int, tests: nat)

  /** `suites` are the registered suites, `known` counts all suites of the tester. */
  datatype Config = Config(suites: seq<Suite>, known: nat, maxParallelSuites: int,
                           startTime: nat, timeoutSeconds: int, threshold: int)

  /** `bc_tester_get_max_parallel_processes`. */
  function MaxProcess(c: Config): int {
    if c.maxParallelSuites == 0 then c.known / 2 + 1 else c.maxParallelSuites
  }

  /** `test_suite_cpu_weight`: an oversized weight is ignored. */
  function Weight(c: Config, suite: Suite): int {
    var w := if suite.cpuWeight == 0 then 1 else suite.cpuWeight;
    if w > MaxProcess(c) then 1 else w
  }

  function Deadline(c: Config): nat {
    c.startTime + (if c.timeoutSeconds <= 0 then 60 * 60 else c.timeoutSeconds) * 1000
  }

  // ---------------------------------------------------------------- one turn of the loop

  datatype Exit = Exited(code: nat) | Signaled(signal: nat)
  datatype Fork = ForkFailed | Forked(pid: int)
  datatype Wait = WaitFailed | Nothing | Reaped(pid: int, exit: Exit)
  datatype Turn = Turn(fork: Fork, wait: Wait, now: nat)

  /** The local variables of the loop; `exits` additionally remembers how each suite ended. */
  datatype State = State(pids: seq<int>, finished: seq<bool>, exits: map<nat, Exit>, nextSuite: nat,
                         runningSuites: int, testsFinished: int, ret: int, cpuWeight: int, elapsed: nat)

  function Start(c: Config): State {
    State(seq(|c.suites|, _ => 0), seq(|c.suites|, _ => false), map[], 0, 0, 0, 0, 0, c.startTime)
  }

  predicate Shaped(c: Config, s: State) {
    |s.pids| == |s.finished| == |c.suites| && s.nextSuite <= |c.suites|
  }

  /** The admission test. */
  predicate Admits(c: Config, s: State)
    requires Shaped(c, s)
  {
    s.nextSuite < |c.suites| && s.cpuWeight + Weight(c, c.suites[s.nextSuite]) <= MaxProcess(c)
  }

  function Launched(c: Config, s: State, fork: Fork): Option<State>
    requires Shaped(c, s)
  {
    if !Admits(c, s) then Some(s)
    else if fork.ForkFailed? then None
    else Some(s.(pids := s.pids[s.nextSuite := fork.pid],
                 runningSuites := s.runningSuites + 1,
                 cpuWeight := s.cpuWeight + Weight(c, c.suites[s.nextSuite]),
                 nextSuite := s.nextSuite + 1))
  }

  /** `lookup_suite_from_pid`: the first suite recorded with this pid, or the end. */
  function Lookup(pids: seq<int>, pid: int, from: nat := 0): (i: nat)
    requires from <= |pids|
    ensures from <= i <= |pids|
    ensures i < |pids| ==> pids[i] == pid
    ensures forall k | from <= k < i :: pids[k] != pid
    decreases |pids| - from
  {
    if from == |pids| || pids[from] == pid then from else Lookup(pids, pid, from + 1)
  }

  /** What a child adds to the result: its exit code counts failed tests, a crash fails them all. */
  function Failures(suite: Suite, exit: Exit): nat {
    if exit.Signaled? || exit.code == 255 then suite.tests else exit.code
  }

  /** A child the parent has launched and not yet reaped. */
  predicate Live(s: State, pid: int) {
    var i := Lookup(s.pids, pid);
    i < s.nextSuite && i < |s.pids| == |s.finished| && !s.finished[i]
  }

  function Collected(c: Config, s: State, wait: Wait): Option<State>
    requires Shaped(c, s)
    requires s.runningSuites > 0 && wait.Reaped? ==> Live(s, wait.pid)
  {
    if s.runningSuites <= 0 || wait.Nothing? then Some(s)
    else if wait.WaitFailed? then None
    else
      var i := Lookup(s.pids, wait.pid);
      Some(s.(cpuWeight := s.cpuWeight - Weight(c, c.suites[i]),
              finished := s.finished[i := true],
              exits := s.exits[i := wait.exit],
              runningSuites := s.runningSuites - 1,
              testsFinished := s.testsFinished + 1,
              ret := s.ret + Failures(c.suites[i], wait.exit)))
  }

  /** What the system can answer: a fresh positive pid, and only live children of ours. */
  predicate Possible(c: Config, s: State, turn: Turn)
    requires Shaped(c, s)
  {
    && (Admits(c, s) && turn.fork.Forked? ==> turn.fork.pid > 0 && turn.fork.pid !in s.pids)
    && var launched := Launched(c, s, turn.fork);
       launched.Some? && launched.value.runningSuites > 0 && turn.wait.Reaped? ==> Live(launched.value, turn.wait.pid)
  }

  function Step(c: Config, s: State, turn: Turn): (r: Option<State>)
    requires Shaped(c, s) && Possible(c, s, turn)
    ensures r.Some? ==> Shaped(c, r.value)
  {
    var launched := Launched(c, s, turn.fork);
    if launched.None? then None
    else
      var collected := Collected(c, launched.value, turn.wait);
      if collected.None? then None else Some(collected.value.(elapsed := turn.now))
  }

  // ---------------------------------------------------------------- whole runs

  datatype Outcome = Waiting(state: State) | Ended(state: State) | Failed

  ghost predicate PossibleRun(c: Config, s: State, turns: seq<Turn>)
    requires Shaped(c, s)
    decreases |turns|
  {
    turns == [] ||
    (Possible(c, s, turns[0]) &&
     var next := Step(c, s, turns[0]);
     next.Some? && next.value.testsFinished < |c.suites| ==> PossibleRun(c, next.value, turns[1..]))
  }

  /** The do-while loop over the answers of the system. */
  ghost function Run(c: Config, s: State, turns: seq<Turn>): Outcome
    requires Shaped(c, s) && PossibleRun(c, s, turns)
    decreases |turns|
  {
    if turns == [] then Waiting(s)
    else
      var next := Step(c, s, turns[0]);
      if next.None? then Failed
      else if next.value.testsFinished < |c.suites| then Run(c, next.value, turns[1..])
      else Ended(next.value)
  }

  /** The return value of a loop that ended. */
  function Verdict(c: Config, s: State): int {
    var ret := if s.elapsed >= Deadline(c) then -1 else s.ret;
    if ret != -1 then (if ret > c.threshold then 1 else 0) else -1
  }

  // ---------------------------------------------------------------- sums over suites

  function LiveWeight(c: Config, finished: seq<bool>, n: nat): int
    requires n <= |finished| == |c.suites|
  {
    if n == 0 then 0 else LiveWeight(c, finished, n - 1) + (if finished[n - 1] then 0 else Weight(c, c.suites[n - 1]))
  }

  function FinishedCount(finished: seq<bool>, n: nat): nat
    requires n <= |finished|
  {
    if n == 0 then 0 else FinishedCount(finished, n - 1) + (if finished[n - 1] then 1 else 0)
  }

  function FailedTests(c: Config, exits: map<nat, Exit>, n: nat): nat
    requires n <= |c.suites|
  {
    if n == 0 then 0
    else FailedTests(c, exits, n - 1) + (if n - 1 in exits then Failures(c.suites[n - 1], exits[n - 1]) else 0)
  }

  lemma {:induction false} FinishOne(c: Config, finished: seq<bool>, exits: map<nat, Exit>, i: nat, exit: Exit, n: nat)
    requires n <= |finished| == |c.suites| && i < |finished| && !finished[i] && i !in exits
    ensures LiveWeight(c, finished[i := true], n) == LiveWeight(c, finished, n) - (if i < n then Weight(c, c.suites[i]) else 0)
    ensures FinishedCount(finished[i := true], n) == FinishedCount(finished, n) + (if i < n then 1 else 0)
    ensures FailedTests(c, exits[i := exit], n) == FailedTests(c, exits, n) + (if i < n then Failures(c.suites[i], exit) else 0)
  {
    if n > 0 {
      FinishOne(c, finished, exits, i, exit, n - 1);
    }
  }

  lemma {:induction false} CountBounds(finished: seq<bool>, n: nat)
    requires n <= |finished|
    ensures FinishedCount(finished, n) <= n
    ensures FinishedCount(finished, n) == n <==> forall i | 0 <= i < n :: finished[i]
  {
    if n > 0 {
      CountBounds(finished, n - 1);
    }
  }

  lemma {:induction false} NothingLive(c: Config, finished: seq<bool>, n: nat)
    requires n <= |finished| == |c.suites| && forall i | 0 <= i < n :: finished[i]
    ensures LiveWeight(c, finished, n) == 0
  {
    if n > 0 {
      NothingLive(c, finished, n - 1);
    }
  }

  // ---------------------------------------------------------------- safety

  predicate Sane(c: Config) {
    c.maxParallelSuites >= 0 && forall suite | suite in c.suites :: suite.cpuWeight >= 0
  }

  /** The book-keeping every turn keeps, whatever the limit. */
  ghost predicate Books(c: Config, s: State) {
    && Shaped(c, s)
    && (forall i | 0 <= i < s.nextSuite :: s.pids[i] > 0)
    && (forall i | s.nextSuite <= i < |c.suites| :: s.pids[i] == 0 && !s.finished[i])
    && (forall i, j | 0 <= i < j < s.nextSuite :: s.pids[i] != s.pids[j])
    && (forall i: nat :: i in s.exits <==> i < |c.suites| && s.finished[i])
    && s.testsFinished == FinishedCount(s.finished, |c.suites|)
    && s.runningSuites == s.nextSuite - s.testsFinished
    && s.cpuWeight == LiveWeight(c, s.finished, s.nextSuite)
    && s.ret == FailedTests(c, s.exits, |c.suites|)
  }

  /** What every turn keeps: correct books and a total weight within the limit. */
  ghost predicate Invariant(c: Config, s: State) {
    Books(c, s) && s.cpuWeight <= MaxProcess(c)
  }

  lemma WeightBounds(c: Config, suite: Suite)
    requires Sane(c) && suite in c.suites
    ensures 1 <= Weight(c, suite) <= MaxProcess(c)
  {
  }

  lemma {:induction false} NothingFinishedYet(c: Config, n: nat)
    requires n <= |c.suites|
    ensures LiveWeight(c, Start(c).finished, 0) == 0 && FinishedCount(Start(c).finished, n) == 0
    ensures FailedTests(c, map[], n) == 0
  {
    if n > 0 {
      NothingFinishedYet(c, n - 1);
    }
  }

  lemma StartIsInvariant(c: Config)
    requires Sane(c)
    ensures Invariant(c, Start(c))
  {
    NothingFinishedYet(c, |c.suites|);
  }

  lemma {:induction false} CountBeyond(finished: seq<bool>, lo: nat, n: nat)
    requires lo <= n <= |finished| && forall i | lo <= i < n :: !finished[i]
    ensures FinishedCount(finished, n) == FinishedCount(finished, lo)
  {
    if lo < n {
      CountBeyond(finished, lo, n - 1);
    }
  }

  lemma LaunchKeepsInvariant(c: Config, s: State, fork: Fork)
    requires Invariant(c, s) && (Admits(c, s) && fork.Forked? ==> fork.pid > 0 && fork.pid !in s.pids)
    ensures Launched(c, s, fork).Some? ==> Invariant(c, Launched(c, s, fork).value)
  {
    if Admits(c, s) && fork.Forked? {
      var s' := Launched(c, s, fork).value;
      assert forall i | 0 <= i < |c.suites| && i != s.nextSuite :: s'.pids[i] == s.pids[i];
    }
  }

  lemma CollectKeepsInvariant(c: Config, s: State, wait: Wait)
    requires Sane(c) && Invariant(c, s) && (s.runningSuites > 0 && wait.Reaped? ==> Live(s, wait.pid))
    ensures Collected(c, s, wait).Some? ==> Invariant(c, Collected(c, s, wait).value)
  {
    if s.runningSuites > 0 && wait.Reaped? {
      var i := Lookup(s.pids, wait.pid);
      FinishOne(c, s.finished, s.exits, i, wait.exit, |c.suites|);
      FinishOne(c, s.finished, s.exits, i, wait.exit, s.nextSuite);
      WeightBounds(c, c.suites[i]);
    }
  }

  /** Main result, safety: every turn keeps the invariant; in particular the total weight of the
      running suites stays within the limit, whatever the system answers. */
  lemma StepKeepsInvariant(c: Config, s: State, turn: Turn)
    requires Sane(c) && Invariant(c, s) && Possible(c, s, turn)
    ensures Step(c, s, turn).Some? ==> Invariant(c, Step(c, s, turn).value)
  {
    LaunchKeepsInvariant(c, s, turn.fork);
    var launched := Launched(c, s, turn.fork);
    if launched.Some? {
      CollectKeepsInvariant(c, launched.value, turn.wait);
    }
  }

  /** Suites start in registry order, each once and at most one per turn; what is recorded of a
      started suite never changes and a finished suite stays finished. */
  lemma StepKeepsHistory(c: Config, s: State, turn: Turn)
    requires Invariant(c, s) && Possible(c, s, turn) && Step(c, s, turn).Some?
    ensures
      var s' := Step(c, s, turn).value;
      && s'.nextSuite == s.nextSuite + (if Admits(c, s) then 1 else 0)
      && (forall i | 0 <= i < s.nextSuite :: s'.pids[i] == s.pids[i] && (s.finished[i] ==> s'.finished[i]))
      && (forall i | i in s.exits :: i in s'.exits && s'.exits[i] == s.exits[i])
  {
  }

  /** A turn launches the next suite exactly when its weight fits beside those still running. */
  lemma LaunchesWhatFits(c: Config, s: State, turn: Turn)
    requires Invariant(c, s) && Possible(c, s, turn) && Step(c, s, turn).Some?
    ensures Step(c, s, turn).value.nextSuite > s.nextSuite <==>
      s.nextSuite < |c.suites| &&
      LiveWeight(c, s.finished, s.nextSuite) + Weight(c, c.suites[s.nextSuite]) <= MaxProcess(c)
  {
    StepKeepsHistory(c, s, turn);
  }

  /** One suite at a time, and a suite of negative weight in front of two others. */
  const NEGATIVE: Config :=
    Config([Suite("A", -1, 1), Suite("B", 1, 1), Suite("C", 1, 1)], 3, 1, 0, 0, 0)

  /** Three launches, and the suite of negative weight ends in the third turn. */
  const CROWDED: seq<Turn> :=
    [Turn(Forked(1), Nothing, 0), Turn(Forked(2), Nothing, 0), Turn(Forked(3), Reaped(1, Exited(0)), 0)]

  /** A negative declared weight breaks the bound: it makes room for others, and its end raises the
      total above the limit. */
  lemma NegativeWeightBreaksLimit()
    ensures PossibleRun(NEGATIVE, Start(NEGATIVE), CROWDED)
    ensures
      var out := Run(NEGATIVE, Start(NEGATIVE), CROWDED);
      out.Waiting? && out.state.runningSuites == 2 && out.state.cpuWeight == 2 > MaxProcess(NEGATIVE)
  {
    var c := NEGATIVE;
    var s0 := Start(c);
    assert s0.pids == [0, 0, 0] && s0.finished == [false, false, false];
    var s1 := State([1, 0, 0], s0.finished, map[], 1, 1, 0, 0, -1, 0);
    var s2 := State([1, 2, 0], s0.finished, map[], 2, 2, 0, 0, 0, 0);
    var s3 := State([1, 2, 3], [true, false, false], map[0 := Exited(0)], 3, 2, 1, 0, 2, 0);
    assert s0.pids[0 := 1] == s1.pids && s1.pids[1 := 2] == s2.pids && s2.pids[2 := 3] == s3.pids;
    assert s2.finished[0 := true] == s3.finished;
    assert Step(c, s0, CROWDED[0]) == Some(s1);
    assert Step(c, s1, CROWDED[1]) == Some(s2);
    assert Lookup([1, 2, 3], 1) == 0;
    assert Possible(c, s2, CROWDED[2]) && Step(c, s2, CROWDED[2]) == Some(s3);
    OneMoreTurn(c, s2, CROWDED[2], []);
    OneMoreTurn(c, s1, CROWDED[1], [CROWDED[2]]);
    OneMoreTurn(c, s0, CROWDED[0], [CROWDED[1]] + [CROWDED[2]]);
    assert CROWDED == [CROWDED[0]] + ([CROWDED[1]] + [CROWDED[2]]);
  }

  lemma OneMoreTurn(c: Config, s: State, turn: Turn, turns: seq<Turn>)
    requires Shaped(c, s) && Possible(c, s, turn) && Step(c, s, turn).Some?
    requires Step(c, s, turn).value.testsFinished < |c.suites| && PossibleRun(c, Step(c, s, turn).value, turns)
    ensures PossibleRun(c, s, [turn] + turns) && Run(c, s, [turn] + turns) == Run(c, Step(c, s, turn).value, turns)
  {
    assert ([turn] + turns)[1..] == turns;
  }

  // ---------------------------------------------------------------- progress

  /** With suites left and nothing running, the next turn starts one exactly when the limit is
      positive; a negative --parallel-max therefore never starts anything. */
  lemma IdleAdmits(c: Config, s: State)
    requires Books(c, s) && s.runningSuites == 0 && s.testsFinished < |c.suites|
    requires forall suite | suite in c.suites :: suite.cpuWeight >= 0
    ensures s.nextSuite < |c.suites| && s.cpuWeight == 0
    ensures Admits(c, s) <==> MaxProcess(c) >= 1
  {
    CountBeyond(s.finished, s.nextSuite, |c.suites|);
    CountBounds(s.finished, s.nextSuite);
    NothingLive(c, s.finished, s.nextSuite);
  }

  /** With a negative limit the loop polls for ever without starting a suite. */
  lemma {:induction false} NegativeLimitNeverStarts(c: Config, s: State, turns: seq<Turn>)
    requires MaxProcess(c) < 1 && c.suites != [] && forall suite | suite in c.suites :: suite.cpuWeight >= 0
    requires Books(c, s) && s.nextSuite == 0 && PossibleRun(c, s, turns)
    ensures Run(c, s, turns).Waiting? && Run(c, s, turns).state.nextSuite == 0
    decreases |turns|
  {
    CountBeyond(s.finished, 0, |c.suites|);
    IdleAdmits(c, s);
    if turns != [] {
      assert Step(c, s, turns[0]) == Some(s.(elapsed := turns[0].now));
      NegativeLimitNeverStarts(c, s.(elapsed := turns[0].now), turns[1..]);
    }
  }

  function IdlePolls(turns: seq<Turn>): nat {
    if turns == [] then 0 else (if turns[0].wait.Nothing? then 1 else 0) + IdlePolls(turns[1..])
  }

  /** Each turn launches, reaps, or polls children that are all still running. */
  lemma TurnMakesProgress(c: Config, s: State, turn: Turn)
    requires Sane(c) && Invariant(c, s) && Possible(c, s, turn) && s.testsFinished < |c.suites|
    requires Step(c, s, turn).Some?
    ensures
      var s' := Step(c, s, turn).value;
      s'.nextSuite + s'.testsFinished + (if turn.wait.Nothing? then 1 else 0) >= s.nextSuite + s.testsFinished + 1
  {
    if s.runningSuites == 0 {
      IdleAdmits(c, s);
    } else {
      CountBeyond(s.finished, s.nextSuite, |c.suites|);
      CountBounds(s.finished, s.nextSuite);
    }
  }

  lemma {:induction false} RunInvariant(c: Config, s: State, turns: seq<Turn>)
    requires Sane(c) && Invariant(c, s) && PossibleRun(c, s, turns) && s.testsFinished < |c.suites|
    ensures
      match Run(c, s, turns)
      case Waiting(e) =>
        && Invariant(c, e) && e.testsFinished < |c.suites|
        && |turns| <= (e.nextSuite + e.testsFinished) - (s.nextSuite + s.testsFinished) + IdlePolls(turns)
      case Ended(e) => Invariant(c, e) && e.testsFinished >= |c.suites|
      case Failed => exists t | t in turns :: t.fork.ForkFailed? || t.wait.WaitFailed?
    decreases |turns|
  {
    if turns != [] {
      var next := Step(c, s, turns[0]);
      StepKeepsInvariant(c, s, turns[0]);
      if next.None? {
        assert turns[0] in turns;
      } else {
        TurnMakesProgress(c, s, turns[0]);
        if next.value.testsFinished < |c.suites| {
          RunInvariant(c, next.value, turns[1..]);
        }
      }
    }
  }

  /** Main result, progress: the loop is over after at most twice as many turns as there are suites,
      not counting the polls that found every child still running. */
  lemma RunEnds(c: Config, turns: seq<Turn>)
    requires Sane(c) && PossibleRun(c, Start(c), turns) && c.suites != []
    requires |turns| >= 2 * |c.suites| + IdlePolls(turns)
    ensures !Run(c, Start(c), turns).Waiting?
  {
    StartIsInvariant(c);
    NothingFinishedYet(c, |c.suites|);
    RunInvariant(c, Start(c), turns);
  }

  // ---------------------------------------------------------------- result

  /** All tests of the suites that crashed: killed by a signal, or exited with 255. */
  function CrashedTests(c: Config, exits: map<nat, Exit>, n: nat): nat
    requires n <= |c.suites|
  {
    if n == 0 then 0
    else
      CrashedTests(c, exits, n - 1) +
      (if n - 1 !in exits then 0
       else match exits[n - 1]
            case Signaled(_) => c.suites[n - 1].tests
            case Exited(code) => if code == 255 then c.suites[n - 1].tests else 0)
  }

  /** The exit codes of all other suites, each a number of failed tests. */
  function ReturnedCodes(exits: map<nat, Exit>, n: nat): nat {
    if n == 0 then 0
    else
      ReturnedCodes(exits, n - 1) +
      (if n - 1 !in exits then 0
       else match exits[n - 1]
            case Signaled(_) => 0
            case Exited(code) => if code == 255 then 0 else code)
  }

  lemma {:induction false} FailuresByKind(c: Config, exits: map<nat, Exit>, n: nat)
    requires n <= |c.suites|
    ensures FailedTests(c, exits, n) == CrashedTests(c, exits, n) + ReturnedCodes(exits, n)
  {
    if n > 0 { FailuresByKind(c, exits, n - 1); }
  }

  lemma {:induction false} CrashCounts(c: Config, exits: map<nat, Exit>, n: nat, i: nat)
    requires i < n <= |c.suites| && i in exits && (exits[i].Signaled? || exits[i] == Exited(255))
    ensures c.suites[i].tests <= CrashedTests(c, exits, n)
  {
    if i < n - 1 { CrashCounts(c, exits, n - 1, i); }
  }

  /** Main result, verdict: a run that ends has an exit for every suite; it returns -1 exactly when
      the deadline has passed, and otherwise compares with the threshold the tests of all crashed
      suites and the exit codes of the others. */
  lemma RunResult(c: Config, turns: seq<Turn>)
    requires Sane(c) && PossibleRun(c, Start(c), turns) && Run(c, Start(c), turns).Ended?
    ensures
      var s := Run(c, Start(c), turns).state;
      var failed := CrashedTests(c, s.exits, |c.suites|) + ReturnedCodes(s.exits, |c.suites|);
      && (forall i: nat :: i in s.exits <==> i < |c.suites|)
      && s.ret == failed
      && (Verdict(c, s) == -1 <==> s.elapsed >= Deadline(c))
      && (s.elapsed < Deadline(c) ==> (Verdict(c, s) == 1 <==> failed > c.threshold))
      && Verdict(c, s) in {-1, 0, 1}
      && s.runningSuites == 0 && s.cpuWeight == 0
  {
    StartIsInvariant(c);
    NothingFinishedYet(c, |c.suites|);
    var s := Run(c, Start(c), turns).state;
    if c.suites == [] {
      StepKeepsInvariant(c, Start(c), turns[0]);
    } else {
      RunInvariant(c, Start(c), turns);
    }
    CountBounds(s.finished, |c.suites|);
    CountBeyond(s.finished, s.nextSuite, |c.suites|);
    CountBounds(s.finished, s.nextSuite);
    NothingLive(c, s.finished, s.nextSuite);
    FailuresByKind(c, s.exits, |c.suites|);
  }

  /** A suite that crashes fails the run when it has more tests than the threshold allows. */
  lemma CrashFailsRun(c: Config, turns: seq<Turn>, i: nat)
    requires Sane(c) && PossibleRun(c, Start(c), turns) && Run(c, Start(c), turns).Ended?
    requires
      var s := Run(c, Start(c), turns).state;
      && i < |c.suites| && i in s.exits && (s.exits[i].Signaled? || s.exits[i] == Exited(255))
      && c.suites[i].tests > c.threshold
    ensures Verdict(c, Run(c, Start(c), turns).state) != 0
  {
    RunResult(c, turns);
    CrashCounts(c, Run(c, Start(c), turns).state.exits, |c.suites|, i);
  }

  // ---------------------------------------------------------------- what the books are about

  ghost predicate ForkedIn(turns: seq<Turn>, pid: int) { exists t | t in turns :: t.fork == Forked(pid) }

  ghost predicate ReapedIn(turns: seq<Turn>, pid: int, exit: Exit) { exists t | t in turns :: t.wait == Reaped(pid, exit) }

  /** From `s` to `e`, every new pid is one the system gave, every new exit the one it reported for that
      pid, and nothing recorded before has changed. */
  ghost predicate Explained(s: State, e: State, turns: seq<Turn>) {
    && s.nextSuite <= e.nextSuite <= |e.pids| == |s.pids|
    && (forall i | 0 <= i < s.nextSuite :: e.pids[i] == s.pids[i])
    && (forall i | s.nextSuite <= i < e.nextSuite :: ForkedIn(turns, e.pids[i]))
    && (forall i | i in s.exits :: i in e.exits && e.exits[i] == s.exits[i])
    && (forall i | i in e.exits && i !in s.exits :: i < e.nextSuite && ReapedIn(turns, e.pids[i], e.exits[i]))
  }

  lemma StepIsExplained(c: Config, s: State, turn: Turn)
    requires Invariant(c, s) && Possible(c, s, turn) && Step(c, s, turn).Some?
    ensures Explained(s, Step(c, s, turn).value, [turn])
  {
    StepKeepsHistory(c, s, turn);
    var s1 := Launched(c, s, turn.fork).value;
    var e := Step(c, s, turn).value;
    assert turn in [turn];
    forall i | i in e.exits && i !in s.exits ensures i < e.nextSuite && ReapedIn([turn], e.pids[i], e.exits[i]) {
      assert i == Lookup(s1.pids, turn.wait.pid);
      assert turn.wait == Reaped(e.pids[i], e.exits[i]);
    }
    forall i | s.nextSuite <= i < e.nextSuite ensures ForkedIn([turn], e.pids[i]) {
      assert turn.fork == Forked(e.pids[i]);
    }
  }

  lemma ExplainedOnward(s: State, m: State, e: State, turn: Turn, turns: seq<Turn>)
    requires Explained(s, m, [turn]) && Explained(m, e, turns)
    requires forall i | i in m.exits :: i < m.nextSuite
    ensures Explained(s, e, [turn] + turns)
  {
    var all := [turn] + turns;
    assert turn in all && forall t | t in turns :: t in all;
    forall i | s.nextSuite <= i < e.nextSuite ensures ForkedIn(all, e.pids[i]) {
      if i < m.nextSuite { assert ForkedIn([turn], m.pids[i]); } else { assert ForkedIn(turns, e.pids[i]); }
    }
    forall i | i in e.exits && i !in s.exits ensures i < e.nextSuite && ReapedIn(all, e.pids[i], e.exits[i]) {
      if i in m.exits {
        assert ReapedIn([turn], m.pids[i], m.exits[i]);
      } else {
        assert ReapedIn(turns, e.pids[i], e.exits[i]);
      }
    }
  }

  lemma ExitsAreLaunched(c: Config, s: State)
    requires Invariant(c, s)
    ensures forall i | i in s.exits :: i < s.nextSuite
  {
    forall i | i in s.exits ensures i < s.nextSuite {
      assert s.finished[i];
    }
  }

  lemma {:induction false} RunIsExplained(c: Config, s: State, turns: seq<Turn>)
    requires Sane(c) && Invariant(c, s) && PossibleRun(c, s, turns)
    ensures !Run(c, s, turns).Failed? ==> Explained(s, Run(c, s, turns).state, turns)
    decreases |turns|
  {
    if turns != [] && Step(c, s, turns[0]).Some? {
      var m := Step(c, s, turns[0]).value;
      StepKeepsInvariant(c, s, turns[0]);
      StepIsExplained(c, s, turns[0]);
      ExitsAreLaunched(c, m);
      assert turns == [turns[0]] + turns[1..];
      if m.testsFinished < |c.suites| {
        RunIsExplained(c, m, turns[1..]);
      } else {
        assert Explained(m, m, turns[1..]);
      }
      if !Run(c, s, turns).Failed? {
        ExplainedOnward(s, m, Run(c, s, turns).state, turns[0], turns[1..]);
      }
    }
  }

  /** The number of turns a run takes. */
  ghost function Taken(c: Config, s: State, turns: seq<Turn>): (k: nat)
    requires Shaped(c, s) && PossibleRun(c, s, turns)
    ensures k <= |turns| && (turns != [] ==> k > 0)
    decreases |turns|
  {
    if turns == [] then 0
    else
      var next := Step(c, s, turns[0]);
      if next.Some? && next.value.testsFinished < |c.suites| then 1 + Taken(c, next.value, turns[1..]) else 1
  }

  /** The deadline is compared with the clock of the last turn. */
  lemma {:induction false} ElapsedAtEnd(c: Config, s: State, turns: seq<Turn>)
    requires Shaped(c, s) && PossibleRun(c, s, turns) && Run(c, s, turns).Ended?
    ensures Run(c, s, turns).state.elapsed == turns[Taken(c, s, turns) - 1].now
    decreases |turns|
  {
    var next := Step(c, s, turns[0]);
    if next.value.testsFinished < |c.suites| { ElapsedAtEnd(c, next.value, turns[1..]); }
  }

  /** Main result: in a run that ends, the exit counted for each suite is the one the system reported for
      the child that was forked for it, and the clock is that of the last turn. */
  lemma RunCountsWhatHappened(c: Config, turns: seq<Turn>)
    requires Sane(c) && PossibleRun(c, Start(c), turns) && Run(c, Start(c), turns).Ended?
    ensures
      var s := Run(c, Start(c), turns).state;
      && |s.pids| == |c.suites|
      && (forall i | 0 <= i < |c.suites| ::
            i in s.exits && ForkedIn(turns, s.pids[i]) && ReapedIn(turns, s.pids[i], s.exits[i]))
      && (forall i, j | 0 <= i < j < |c.suites| :: s.pids[i] != s.pids[j])
      && s.elapsed == turns[Taken(c, Start(c), turns) - 1].now
  {
    StartIsInvariant(c);
    RunResult(c, turns);
    RunIsExplained(c, Start(c), turns);
    ElapsedAtEnd(c, Start(c), turns);
    RunKeepsBooks(c, Start(c), turns);
  }

  lemma {:induction false} RunKeepsBooks(c: Config, s: State, turns: seq<Turn>)
    requires Sane(c) && Invariant(c, s) && PossibleRun(c, s, turns)
    ensures !Run(c, s, turns).Failed? ==> Invariant(c, Run(c, s, turns).state)
    decreases |turns|
  {
    if turns != [] && Step(c, s, turns[0]).Some? {
      StepKeepsInvariant(c, s, turns[0]);
      if Step(c, s, turns[0]).value.testsFinished < |c.suites| {
        RunKeepsBooks(c, Step(c, s, turns[0]).value, turns[1..]);
      }
    }
  }

  // ---------------------------------------------------------------- the configured bounds

  /** A declared weight counts as declared when it fits; none, or one that does not fit, counts as one. */
  lemma DeclaredWeight(c: Config, suite: Suite)
    requires Sane(c) && suite.cpuWeight >= 0
    ensures 1 <= suite.cpuWeight <= MaxProcess(c) ==> Weight(c, suite) == suite.cpuWeight
    ensures suite.cpuWeight == 0 || suite.cpuWeight > MaxProcess(c) ==> Weight(c, suite) == 1
  {
  }

  /** Without a limit of its own a run takes one more than half of all suites; with one, that. */
  lemma DefaultLimit(c: Config)
    ensures c.maxParallelSuites == 0 ==> 2 * (MaxProcess(c) - 1) <= c.known < 2 * MaxProcess(c)
    ensures c.maxParallelSuites != 0 ==> MaxProcess(c) == c.maxParallelSuites
  {
  }

  /** One hour after the start, unless a positive number of seconds is set. */
  lemma DefaultDeadline(c: Config)
    ensures c.timeoutSeconds <= 0 ==> Deadline(c) == c.startTime + 3_600_000
    ensures c.timeoutSeconds > 0 ==> Deadline(c) == c.startTime + 1000 * c.timeoutSeconds
  {
  }

  // ---------------------------------------------------------------- the loop

  /** The variables of the loop: two status arrays and the counters. */
  class Loop {
    const c: Config
    const pids: array<int>
    const finished: array<bool>
    var nextSuite: nat
    var runningSuites: int
    var testsFinished: int
    var ret: int
    var suitesCpuWeight: int
    var elapsed: nat
    ghost var exits: map<nat, Exit>

    ghost function Abstract(): State
      reads this, pids, finished
    {
      State(pids[..], finished[..], exits, nextSuite, runningSuites, testsFinished, ret, suitesCpuWeight, elapsed)
    }

    ghost predicate Valid()
      reads this, pids, finished
    {
      pids.Length == finished.Length == |c.suites| && nextSuite <= |c.suites|
    }

    constructor (config: Config)
      ensures c == config && Valid() && Abstract() == Start(config) && fresh(pids) && fresh(finished)
    {
      c := config;
      pids := new int[|config.suites|](_ => 0);
      finished := new bool[|config.suites|](_ => false);
      nextSuite, runningSuites, testsFinished, ret, suitesCpuWeight := 0, 0, 0, 0, 0;
      elapsed, exits := config.startTime, map[];
      new;
      assert pids[..] == Start(config).pids && finished[..] == Start(config).finished;
    }

    /** The admission test and the fork. */
    method Launch(fork: Fork) returns (ok: bool)
      requires Valid()
      modifies this, pids
      ensures Valid() && ok == Launched(c, old(Abstract()), fork).Some?
      ensures ok ==> Launched(c, old(Abstract()), fork) == Some(Abstract())
    {
      ok := true;
      if nextSuite < |c.suites| {
        var weight := Weight(c, c.suites[nextSuite]);
        if suitesCpuWeight + weight <= MaxProcess(c) {
          if fork.ForkFailed? {
            return false;
          }
          pids[nextSuite] := fork.pid;
          runningSuites := runningSuites + 1;
          suitesCpuWeight := suitesCpuWeight + weight;
          nextSuite := nextSuite + 1;
        }
      }
    }

    method LookupSuite(pid: int) returns (index: nat)
      ensures index == Lookup(pids[..], pid)
    {
      index := 0;
      while index < pids.Length && pids[index] != pid
        invariant index <= pids.Length
        invariant Lookup(pids[..], pid) == Lookup(pids[..], pid, index)
      {
        index := index + 1;
      }
    }

    /** The poll of the children and the book-keeping for a reaped one. */
    method Collect(wait: Wait) returns (ok: bool)
      requires Valid() && (runningSuites > 0 && wait.Reaped? ==> Live(Abstract(), wait.pid))
      modifies this, finished
      ensures Valid() && ok == Collected(c, old(Abstract()), wait).Some?
      ensures ok ==> Collected(c, old(Abstract()), wait) == Some(Abstract())
    {
      ok := true;
      if runningSuites > 0 {
        if wait.WaitFailed? {
          return false;
        }
        if wait.Reaped? {
          var index := LookupSuite(wait.pid);
          suitesCpuWeight := suitesCpuWeight - Weight(c, c.suites[index]);
          finished[index] := true;
          exits := exits[index := wait.exit];
          runningSuites := runningSuites - 1;
          testsFinished := testsFinished + 1;
          ret := ret + Failures(c.suites[index], wait.exit);
        }
      }
    }

    method OneTurn(turn: Turn) returns (ok: bool)
      requires Valid() && Possible(c, Abstract(), turn)
      modifies this, pids, finished
      ensures Valid() && ok == Step(c, old(Abstract()), turn).Some?
      ensures ok ==> Step(c, old(Abstract()), turn) == Some(Abstract())
    {
      ok := Launch(turn.fork);
      if ok {
        ok := Collect(turn.wait);
        elapsed := turn.now;
      }
    }
  }

  /** `bc_tester_run_parallel`, driven by the answers of the system; None if they run out first. */
  method RunParallel(c: Config, turns: seq<Turn>) returns (code: Option<int>)
    requires PossibleRun(c, Start(c), turns)
    ensures
      match Run(c, Start(c), turns)
      case Waiting(_) => code == None
      case Failed => code == Some(-1)
      case Ended(s) => code == Some(Verdict(c, s))
  {
    var loop := new Loop(c);
    ghost var rest := turns;
    for k := 0 to |turns|
      invariant loop.Valid() && loop.c == c && fresh(loop) && fresh(loop.pids) && fresh(loop.finished)
      invariant rest == turns[k..] && PossibleRun(c, loop.Abstract(), rest)
      invariant Run(c, loop.Abstract(), rest) == Run(c, Start(c), turns)
    {
      assert rest[0] == turns[k] && rest[1..] == turns[k + 1..];
      var ok := loop.OneTurn(turns[k]);
      if !ok {
        return Some(-1);
      }
      if loop.testsFinished >= |c.suites| {
        var ret := if loop.elapsed >= Deadline(c) then -1 else loop.ret;
        code := if ret != -1 then Some(if ret > c.threshold then 1 else 0) else Some(-1);
        return;
      }
      rest := rest[1..];
    }
    code := None;
  }
}
