/** The voice activity filter (vad.cc). What `WebRtcVad_Process` would answer for a block travels with
    the block; the ticker's time is a parameter. Times are unsigned 64-bit, as in the source. */
module Vad {
  const WIDTH: nat := 0x1_0000_0000_0000_0000
  const HANGOVER: U32 := 1000

  /** `uint64_t`, with its wrapping addition and subtraction. */
  type U64 = x: nat | x < WIDTH
  /** `unsigned int`, the type in which a threshold arrives. */
  type U32 = x: nat | x < 0x1_0000_0000
  function Plus(a: U64, b: U64): U64 { if a + b < WIDTH then a + b else a + b - WIDTH }
  function Minus(a: U64, b: U64): U64 { if b <= a then a - b else a + WIDTH - b }

  datatype Notice = SilenceDetected | SilenceEnded(ms: U64) | VoiceDetected | VoiceEnded

  /** A message block and the detector's answer for it: any nonzero answer, -1 for an error included, is voice. */
  datatype Block = Block(samples: seq<int>, answer: int) {
    predicate Voiced() { answer != 0 }
  }

  datatype State = State(instance: bool, enable: bool, silenceDetection: int, threshold: U32,
                         last: U64, silenceSent: bool, voiceSent: bool, log: seq<Notice>)
  {
    predicate Active() { enable && instance }
    predicate SilenceMode() { silenceDetection != 0 && threshold > 0 }
    function Noted(n: Notice): State { this.(log := log + [n]) }
  }

  function Start(instance: bool): State { State(instance, true, 0, 0, 0, false, false, []) }

  function InSilenceMode(s: State, now: U64, voiced: bool): State {
    if voiced then
      (if s.silenceSent then s.Noted(SilenceEnded(Minus(now, s.last))) else s).(last := now, silenceSent := false)
    else if Plus(s.last, s.threshold) <= now then
      (if s.silenceSent then s else s.Noted(SilenceDetected)).(silenceSent := true)
    else s
  }

  function InVoiceMode(s: State, now: U64, voiced: bool): State {
    if voiced then
      (if s.voiceSent then s else s.Noted(VoiceDetected)).(voiceSent := true, last := now)
    else if s.voiceSent && Plus(s.last, HANGOVER) <= now then s.Noted(VoiceEnded).(voiceSent := false)
    else s
  }

  /** One block through the filter. */
  function Heard(s: State, now: U64, voiced: bool): State {
    if !s.Active() then s
    else if s.SilenceMode() then InSilenceMode(s, now, voiced)
    else InVoiceMode(s, now, voiced)
  }

  /** All the blocks of one tick. */
  function Ticked(s: State, now: U64, blocks: seq<Block>): State
    decreases |blocks|
  {
    if blocks == [] then s else Ticked(Heard(s, now, blocks[0].Voiced()), now, blocks[1..])
  }

  predicate RateSupported(rate: int) { rate == 8000 || rate == 16000 || rate == 32000 || rate == 48000 }

  datatype Op =
    | EnableSilence(value: int)
    | SetThreshold(ms: U32)
    | SetRate(rate: int)
    | Tick(now: U64, blocks: seq<Block>)

  function Next(s: State, op: Op): State {
    match op
    case EnableSilence(value) => s.(silenceDetection := value)
    case SetThreshold(ms) => s.(threshold := ms)
    case SetRate(rate) => s.(enable := RateSupported(rate))
    case Tick(now, blocks) => Ticked(s, now, blocks)
  }

  function Run(s: State, ops: seq<Op>): State
    decreases |ops|
  {
    if ops == [] then s else Run(Next(s, ops[0]), ops[1..])
  }

  // ---------------------------------------------------------------- the filter

  class Filter {
    var instance: bool
    var rate: int
    var enable: bool
    var silenceDetection: int
    var threshold: U32
    var last: U64
    var silenceSent: bool
    var voiceSent: bool
    var input: seq<Block>
    var output: seq<Block>
    var notices: seq<Notice>

    ghost function Abstract(): State
      reads this
    {
      State(instance, enable, silenceDetection, threshold, last, silenceSent, voiceSent, notices)
    }

    /** `created` is whether WebRtcVad_Init succeeded. */
    constructor (created: bool)
      ensures Abstract() == Start(created) && input == [] && output == []
    {
      instance, rate, enable := created, 8000, true;
      silenceDetection, threshold, last := 0, 0, 0;
      silenceSent, voiceSent := false, false;
      input, output, notices := [], [], [];
    }

    method EnableSilenceDetection(value: int)
      modifies this`silenceDetection
      ensures Abstract() == Next(old(Abstract()), EnableSilence(value))
    {
      silenceDetection := value;
    }

    method SetSilenceThreshold(ms: U32)
      modifies this`threshold
      ensures Abstract() == Next(old(Abstract()), SetThreshold(ms))
    {
      threshold := ms;
    }

    method SetSampleRate(value: int)
      modifies this`rate, this`enable
      ensures rate == value && Abstract() == Next(old(Abstract()), SetRate(value))
    {
      rate := value;
      var rates := [8000, 16000, 32000, 48000];
      var i := 0;
      while i < |rates| && rates[i] != value
        invariant 0 <= i <= |rates|
        invariant forall j | 0 <= j < i :: rates[j] != value
      {
        i := i + 1;
      }
      assert RateSupported(value) ==> value in rates;
      enable := i < |rates|;
    }

    method Hear(now: U64, voiced: bool)
      modifies this`last, this`silenceSent, this`voiceSent, this`notices
      ensures Abstract() == Heard(old(Abstract()), now, voiced)
    {
      if !enable || !instance { return; }
      if silenceDetection != 0 && threshold > 0 {
        if voiced {
          if silenceSent { notices := notices + [SilenceEnded(Minus(now, last))]; }
          last := now;
          silenceSent := false;
        } else if Plus(last, threshold) <= now {
          if !silenceSent { notices := notices + [SilenceDetected]; }
          silenceSent := true;
        }
      } else if voiced {
        if !voiceSent {
          notices := notices + [VoiceDetected];
          voiceSent := true;
        }
        last := now;
      } else if voiceSent && Plus(last, HANGOVER) <= now {
        notices := notices + [VoiceEnded];
        voiceSent := false;
      }
    }

    /** `vad_process`: every block leaves, in arrival order, whatever was detected. */
    method Process(now: U64)
      modifies this
      ensures input == [] && output == old(output) + old(input) && rate == old(rate)
      ensures Abstract() == Next(old(Abstract()), Tick(now, old(input)))
    {
      while input != []
        invariant output + input == old(output) + old(input) && rate == old(rate)
        invariant Ticked(Abstract(), now, input) == Ticked(old(Abstract()), now, old(input))
        decreases |input|
      {
        var block := input[0];
        input := input[1..];
        Hear(now, block.Voiced());
        output := output + [block];
      }
    }
  }

  // ---------------------------------------------------------------- notices alternate, over every run

  predicate OfSilence(n: Notice) { n.SilenceDetected? || n.SilenceEnded? }

  /** The notices about silence, or those about voice, in order. */
  function Only(log: seq<Notice>, silence: bool): (r: seq<Notice>)
    ensures forall n | n in r :: OfSilence(n) == silence
  {
    if log == [] then []
    else
      var n := log[|log| - 1];
      var before := Only(log[..|log| - 1], silence);
      if OfSilence(n) == silence then before + [n] else before
  }

  predicate Opens(n: Notice) { n.SilenceDetected? || n.VoiceDetected? }

  /** Beginning, end, beginning, end, ... */
  predicate Alternate(log: seq<Notice>) {
    forall i | 0 <= i < |log| :: Opens(log[i]) <==> i % 2 == 0
  }

  /** Notices alternate, and each flag says whether the last beginning still awaits its end. */
  predicate Paired(s: State) {
    && Alternate(Only(s.log, true)) && (s.silenceSent <==> |Only(s.log, true)| % 2 == 1)
    && Alternate(Only(s.log, false)) && (s.voiceSent <==> |Only(s.log, false)| % 2 == 1)
  }

  lemma OnlyNoted(log: seq<Notice>, n: Notice, silence: bool)
    ensures Only(log + [n], silence) == Only(log, silence) + (if OfSilence(n) == silence then [n] else [])
  {
    assert (log + [n])[..|log|] == log;
  }

  lemma AlternateNoted(log: seq<Notice>, n: Notice)
    requires Alternate(log) && (Opens(n) <==> |log| % 2 == 0)
    ensures Alternate(log + [n])
  {
  }

  lemma NotedKeepsPairs(s: State, n: Notice)
    requires Paired(s)
    requires Opens(n) <==> !(if OfSilence(n) then s.silenceSent else s.voiceSent)
    ensures var t := s.Noted(n);
      Paired(if OfSilence(n) then t.(silenceSent := !s.silenceSent) else t.(voiceSent := !s.voiceSent))
  {
    OnlyNoted(s.log, n, true);
    OnlyNoted(s.log, n, false);
    AlternateNoted(Only(s.log, OfSilence(n)), n);
  }

  lemma HeardKeepsPairs(s: State, now: U64, voiced: bool)
    requires Paired(s)
    ensures Paired(Heard(s, now, voiced))
  {
    NotedKeepsPairs(s, if s.silenceSent then SilenceEnded(Minus(now, s.last)) else SilenceDetected);
    NotedKeepsPairs(s, if s.voiceSent then VoiceEnded else VoiceDetected);
  }

  lemma {:induction false} TickedKeepsPairs(s: State, now: U64, blocks: seq<Block>)
    requires Paired(s)
    ensures Paired(Ticked(s, now, blocks))
    decreases |blocks|
  {
    if blocks != [] {
      HeardKeepsPairs(s, now, blocks[0].Voiced());
      TickedKeepsPairs(Heard(s, now, blocks[0].Voiced()), now, blocks[1..]);
    }
  }

  lemma {:induction false} RunKeepsPairs(s: State, ops: seq<Op>)
    requires Paired(s)
    ensures Paired(Run(s, ops))
    decreases |ops|
  {
    if ops != [] {
      if ops[0].Tick? { TickedKeepsPairs(s, ops[0].now, ops[0].blocks); }
      RunKeepsPairs(Next(s, ops[0]), ops[1..]);
    }
  }

  /** Whatever the detector answers, whenever the settings change and however the clock moves. */
  lemma NoticesAlternate(instance: bool, ops: seq<Op>)
    ensures Alternate(Only(Run(Start(instance), ops).log, true))
    ensures Alternate(Only(Run(Start(instance), ops).log, false))
  {
    RunKeepsPairs(Start(instance), ops);
  }

  // ---------------------------------------------------------------- no sum wraps

  /** Not within 2^32 ms of the end of the ticker's range. */
  predicate Early(time: U64) { time + 0x1_0000_0000 <= WIDTH }

  predicate EarlyOps(ops: seq<Op>) { forall op | op in ops && op.Tick? :: Early(op.now) }

  lemma {:induction false} TickedKeepsEarly(s: State, now: U64, blocks: seq<Block>)
    requires Early(s.last) && Early(now)
    ensures Early(Ticked(s, now, blocks).last)
    decreases |blocks|
  {
    if blocks != [] { TickedKeepsEarly(Heard(s, now, blocks[0].Voiced()), now, blocks[1..]); }
  }

  /** With a threshold of 32 bits, no sum the filter computes in such a run wraps. */
  lemma {:induction false} SumsDoNotWrap(s: State, ops: seq<Op>)
    requires Early(s.last) && EarlyOps(ops)
    ensures
      var t := Run(s, ops);
      && Early(t.last)
      && Plus(t.last, t.threshold) == t.last + t.threshold && Plus(t.last, HANGOVER) == t.last + HANGOVER
    decreases |ops|
  {
    if ops != [] {
      if ops[0].Tick? { TickedKeepsEarly(s, ops[0].now, ops[0].blocks); }
      SumsDoNotWrap(Next(s, ops[0]), ops[1..]);
    }
  }

  // ---------------------------------------------------------------- a filter without state says the same

  /** One block and the time of its tick. */
  datatype Sound = Sound(time: U64, voiced: bool)

  /** The ticker does not go back, and is not within 2^32 ms of the end of its range. */
  predicate Clocked(sounds: seq<Sound>) {
    && (forall i, j | 0 <= i <= j < |sounds| :: sounds[i].time <= sounds[j].time)
    && (forall i | 0 <= i < |sounds| :: Early(sounds[i].time))
  }

  function HeardAll(s: State, sounds: seq<Sound>, n: nat): State
    requires n <= |sounds|
  {
    if n == 0 then s else Heard(HeardAll(s, sounds, n - 1), sounds[n - 1].time, sounds[n - 1].voiced)
  }

  /** The time of the last voice among the first n sounds; 0 before any. */
  function LastVoice(sounds: seq<Sound>, n: nat): U64
    requires n <= |sounds|
  {
    if n == 0 then 0
    else if sounds[n - 1].voiced then sounds[n - 1].time
    else LastVoice(sounds, n - 1)
  }

  lemma {:induction false} LastVoiceIsPast(sounds: seq<Sound>, n: nat)
    requires n <= |sounds| && Clocked(sounds)
    ensures Early(LastVoice(sounds, n))
    ensures forall i | n <= i < |sounds| :: LastVoice(sounds, n) <= sounds[i].time
  {
    if n > 0 { LastVoiceIsPast(sounds, n - 1); }
    if n == 1 && !sounds[0].voiced { assert LastVoice(sounds, 1) == LastVoice(sounds, 0) == 0; }
  }

  /** Silence has lasted the threshold at the n-th sound. */
  predicate Silent(sounds: seq<Sound>, threshold: U32, n: nat)
    requires n <= |sounds|
  {
    n > 0 && !sounds[n - 1].voiced && LastVoice(sounds, n) + threshold <= sounds[n - 1].time
  }

  /** Someone has spoken, and the pause at the n-th sound is still shorter than a second. */
  predicate Speaking(sounds: seq<Sound>, n: nat)
    requires n <= |sounds|
  {
    && (exists i | 0 <= i < n :: sounds[i].voiced)
    && (sounds[n - 1].voiced || sounds[n - 1].time < LastVoice(sounds, n) + 1000)
  }

  /** The notices that `Silent` and `Speaking` call for: one at every change. */
  function SilenceEdges(sounds: seq<Sound>, threshold: U32, n: nat): seq<Notice>
    requires n <= |sounds| && Clocked(sounds)
  {
    if n == 0 then []
    else
      LastVoiceIsPast(sounds, n - 1);
      var before := SilenceEdges(sounds, threshold, n - 1);
      if Silent(sounds, threshold, n - 1) == Silent(sounds, threshold, n) then before
      else if Silent(sounds, threshold, n) then before + [SilenceDetected]
      else before + [SilenceEnded(sounds[n - 1].time - LastVoice(sounds, n - 1))]
  }

  function SpeechEdges(sounds: seq<Sound>, n: nat): seq<Notice>
    requires n <= |sounds|
  {
    if n == 0 then []
    else
      var before := SpeechEdges(sounds, n - 1);
      if Speaking(sounds, n - 1) == Speaking(sounds, n) then before
      else before + [if Speaking(sounds, n) then VoiceDetected else VoiceEnded]
  }

  function SilenceSet(value: int, threshold: U32): State {
    Start(true).(silenceDetection := value, threshold := threshold)
  }

  lemma {:induction false} HeardInSilenceMode(value: int, threshold: U32, sounds: seq<Sound>, n: nat)
    requires n <= |sounds| && value != 0 && threshold > 0 && Clocked(sounds)
    ensures HeardAll(SilenceSet(value, threshold), sounds, n)
         == SilenceSet(value, threshold).(last := LastVoice(sounds, n), silenceSent := Silent(sounds, threshold, n),
                                          log := SilenceEdges(sounds, threshold, n))
  {
    if n > 0 {
      HeardInSilenceMode(value, threshold, sounds, n - 1);
      LastVoiceIsPast(sounds, n - 1);
    }
  }

  lemma {:induction false} HeardInVoiceMode(value: int, threshold: U32, sounds: seq<Sound>, n: nat)
    requires n <= |sounds| && Clocked(sounds) && (value == 0 || threshold == 0)
    ensures HeardAll(SilenceSet(value, threshold), sounds, n)
         == SilenceSet(value, threshold).(last := LastVoice(sounds, n), voiceSent := Speaking(sounds, n),
                                          log := SpeechEdges(sounds, n))
  {
    if n > 0 {
      HeardInVoiceMode(value, threshold, sounds, n - 1);
      LastVoiceIsPast(sounds, n - 1);
    }
  }

  // From sounds to ticks of any number of blocks.

  function Timed(now: U64, blocks: seq<Block>): seq<Sound> {
    if blocks == [] then [] else [Sound(now, blocks[0].Voiced())] + Timed(now, blocks[1..])
  }

  function SoundsOf(ops: seq<Op>): seq<Sound> {
    if ops == [] then []
    else (if ops[0].Tick? then Timed(ops[0].now, ops[0].blocks) else []) + SoundsOf(ops[1..])
  }

  predicate OnlyTicks(ops: seq<Op>) { forall op | op in ops :: op.Tick? }

  lemma {:induction false} HeardAllAppended(s: State, a: seq<Sound>, b: seq<Sound>, n: nat)
    requires n <= |b|
    ensures HeardAll(s, a + b, |a| + n) == HeardAll(HeardAll(s, a, |a|), b, n)
  {
    if n > 0 { HeardAllAppended(s, a, b, n - 1); } else { HeardPrefix(s, a, b, |a|); }
  }

  lemma {:induction false} HeardPrefix(s: State, a: seq<Sound>, b: seq<Sound>, n: nat)
    requires n <= |a|
    ensures HeardAll(s, a + b, n) == HeardAll(s, a, n)
  {
    if n > 0 { HeardPrefix(s, a, b, n - 1); }
  }

  lemma {:induction false} TickedIsHeardAll(s: State, now: U64, blocks: seq<Block>)
    ensures Ticked(s, now, blocks) == HeardAll(s, Timed(now, blocks), |Timed(now, blocks)|)
    decreases |blocks|
  {
    if blocks != [] {
      var one := [Sound(now, blocks[0].Voiced())];
      assert HeardAll(s, one, 1) == Heard(HeardAll(s, one, 0), now, blocks[0].Voiced());
      TickedIsHeardAll(HeardAll(s, one, 1), now, blocks[1..]);
      HeardAllAppended(s, one, Timed(now, blocks[1..]), |Timed(now, blocks[1..])|);
    }
  }

  lemma {:induction false} RunIsHeardAll(s: State, ops: seq<Op>)
    requires OnlyTicks(ops)
    ensures Run(s, ops) == HeardAll(s, SoundsOf(ops), |SoundsOf(ops)|)
    decreases |ops|
  {
    if ops != [] {
      var t := Next(s, ops[0]);
      assert OnlyTicks(ops[1..]);
      RunIsHeardAll(t, ops[1..]);
      TickThenSounds(s, ops[0], SoundsOf(ops[1..]));
    }
  }

  lemma TickThenSounds(s: State, tick: Op, rest: seq<Sound>)
    requires tick.Tick?
    ensures
      var first := Timed(tick.now, tick.blocks);
      HeardAll(Next(s, tick), rest, |rest|) == HeardAll(s, first + rest, |first + rest|)
  {
    var first := Timed(tick.now, tick.blocks);
    TickedIsHeardAll(s, tick.now, tick.blocks);
    HeardAllAppended(s, first, rest, |rest|);
  }

  /** With silence detection set up first, the filter reports exactly the changes of `Silent`. */
  lemma SilenceModeReportsEdges(value: int, threshold: U32, ticks: seq<Op>)
    requires OnlyTicks(ticks) && value != 0 && threshold > 0 && Clocked(SoundsOf(ticks))
    ensures Run(Start(true), [EnableSilence(value), SetThreshold(threshold)] + ticks).log
         == SilenceEdges(SoundsOf(ticks), threshold, |SoundsOf(ticks)|)
  {
    SetUp(value, threshold, ticks);
    RunIsHeardAll(SilenceSet(value, threshold), ticks);
    HeardInSilenceMode(value, threshold, SoundsOf(ticks), |SoundsOf(ticks)|);
  }

  /** With silence detection off, or without a threshold, the filter reports exactly the changes of
      `Speaking`. */
  lemma VoiceModeReportsEdges(value: int, threshold: U32, ticks: seq<Op>)
    requires OnlyTicks(ticks) && Clocked(SoundsOf(ticks)) && (value == 0 || threshold == 0)
    ensures Run(Start(true), [EnableSilence(value), SetThreshold(threshold)] + ticks).log
         == SpeechEdges(SoundsOf(ticks), |SoundsOf(ticks)|)
  {
    SetUp(value, threshold, ticks);
    RunIsHeardAll(SilenceSet(value, threshold), ticks);
    HeardInVoiceMode(value, threshold, SoundsOf(ticks), |SoundsOf(ticks)|);
  }

  lemma SetUp(value: int, threshold: U32, ticks: seq<Op>)
    ensures Run(Start(true), [EnableSilence(value), SetThreshold(threshold)] + ticks) == Run(SilenceSet(value, threshold), ticks)
  {
    var setup := [EnableSilence(value), SetThreshold(threshold)];
    assert (setup + ticks)[1..] == [SetThreshold(threshold)] + ticks;
    assert (setup + ticks)[1..][1..] == ticks;
  }

  /** Without a detector, or at an unsupported rate, blocks pass without a notice and without a trace. */
  lemma {:induction false} InactiveIsSilent(s: State, now: U64, blocks: seq<Block>)
    requires !s.Active()
    ensures Ticked(s, now, blocks) == s
    decreases |blocks|
  {
    if blocks != [] { InactiveIsSilent(s, now, blocks[1..]); }
  }

  /** The filter is active exactly with a detector and at 8, 16, 32 or 48 kHz. */
  lemma ActiveRates(s: State, rate: int)
    ensures Next(s, SetRate(rate)).Active() <==> s.instance && rate % 8000 == 0 && rate / 8000 in {1, 2, 4, 6}
  {
  }

  // ---------------------------------------------------------------- how long a reported silence was

  /** Every silence reported from position `from` on lasted the threshold. */
  predicate LongEnough(log: seq<Notice>, from: nat, threshold: U32) {
    forall i | from <= i < |log| && log[i].SilenceEnded? :: threshold <= log[i].ms
  }

  /** A silence already announced has lasted the threshold now in force. */
  predicate Settled(s: State, now: U64) { s.silenceSent ==> s.last + s.threshold <= now }

  predicate NotBefore(sounds: seq<Sound>, now: U64) { forall i | 0 <= i < |sounds| :: now <= sounds[i].time }

  lemma {:induction false} SettledStays(s: State, now: U64, sounds: seq<Sound>, n: nat)
    requires s.Active() && s.SilenceMode() && s.last <= now && Early(now) && Settled(s, now)
    requires n <= |sounds| && Clocked(sounds) && NotBefore(sounds, now)
    ensures var t := HeardAll(s, sounds, n);
      var time := if n == 0 then now else sounds[n - 1].time;
      && t == s.(last := t.last, silenceSent := t.silenceSent, log := t.log)
      && t.last <= time && Settled(t, time)
      && LongEnough(t.log, |s.log|, s.threshold) && |s.log| <= |t.log|
  {
    if n > 0 { SettledStays(s, now, sounds, n - 1); }
  }

  /** In silence mode, with the threshold kept and a clock that does not go back, all silences reported
      from now on last the threshold exactly when the state is settled: as it is at the start, and as it
      may not be after voice mode heard a voice, or after the threshold was raised. */
  lemma SilencesLastExactlyWhenSettled(s: State, now: U64)
    requires s.Active() && s.SilenceMode() && s.last <= now && Early(now)
    ensures Settled(s, now) <==>
      forall sounds: seq<Sound> | Clocked(sounds) && NotBefore(sounds, now) ::
        LongEnough(HeardAll(s, sounds, |sounds|).log, |s.log|, s.threshold)
  {
    if Settled(s, now) {
      forall sounds: seq<Sound> | Clocked(sounds) && NotBefore(sounds, now)
        ensures LongEnough(HeardAll(s, sounds, |sounds|).log, |s.log|, s.threshold)
      {
        SettledStays(s, now, sounds, |sounds|);
      }
    } else {
      var voice := [Sound(now, true)];
      assert HeardAll(s, voice, 1) == Heard(HeardAll(s, voice, 0), now, true);
      assert HeardAll(s, voice, 1).log[|s.log|] == SilenceEnded(now - s.last);
      assert !LongEnough(HeardAll(s, voice, |voice|).log, |s.log|, s.threshold);
    }
  }

  /** With silence detection set up first and the settings then kept. */
  lemma EveryReportedSilenceLasts(value: int, threshold: U32, ticks: seq<Op>)
    requires OnlyTicks(ticks) && value != 0 && threshold > 0 && Clocked(SoundsOf(ticks))
    ensures LongEnough(Run(Start(true), [EnableSilence(value), SetThreshold(threshold)] + ticks).log, 0, threshold)
  {
    var sounds := SoundsOf(ticks);
    SilenceModeReportsEdges(value, threshold, ticks);
    HeardInSilenceMode(value, threshold, sounds, |sounds|);
    SettledStays(SilenceSet(value, threshold), 0, sounds, |sounds|);
  }

  /** Voice mode leaves the announced silence standing while it moves its beginning. */
  lemma ModeSwitchReportsShortSilence()
    ensures var quiet, voice := Block([], 0), Block([], 1);
      Run(Start(true), [SetThreshold(100), EnableSilence(1), Tick(100, [quiet]), EnableSilence(0), Tick(110, [voice]),
                        EnableSilence(1), Tick(120, [voice])]).log
      == [SilenceDetected, VoiceDetected, SilenceEnded(10)]
  {
    var quiet, voice := Block([], 0), Block([], 1);
    var s3 := SilenceSet(1, 100).(silenceSent := true, log := [SilenceDetected]);
    var s5 := s3.(silenceDetection := 0, voiceSent := true, last := 110, log := [SilenceDetected, VoiceDetected]);
    var s7 := s5.(silenceDetection := 1, silenceSent := false, last := 120,
                  log := [SilenceDetected, VoiceDetected, SilenceEnded(10)]);
    TickOne(SilenceSet(1, 100), 100, quiet);
    TickOne(s3.(silenceDetection := 0), 110, voice);
    TickOne(s5.(silenceDetection := 1), 120, voice);
    assert Heard(SilenceSet(1, 100), 100, false) == s3;
    assert Heard(s3.(silenceDetection := 0), 110, true) == s5;
    assert Heard(s5.(silenceDetection := 1), 120, true) == s7;
    RunTwo(Start(true), SetThreshold(100), EnableSilence(1),
           [Tick(100, [quiet]), EnableSilence(0), Tick(110, [voice]), EnableSilence(1), Tick(120, [voice])]);
    RunTwo(SilenceSet(1, 100), Tick(100, [quiet]), EnableSilence(0),
           [Tick(110, [voice]), EnableSilence(1), Tick(120, [voice])]);
    RunTwo(s3.(silenceDetection := 0), Tick(110, [voice]), EnableSilence(1), [Tick(120, [voice])]);
  }

  lemma TickOne(s: State, now: U64, block: Block)
    ensures Next(s, Tick(now, [block])) == Heard(s, now, block.Voiced())
  {
    var t := Heard(s, now, block.Voiced());
    assert [block][1..] == [];
    assert Ticked(t, now, []) == t;
  }

  lemma RunTwo(s: State, a: Op, b: Op, rest: seq<Op>)
    ensures Run(s, [a, b] + rest) == Run(Next(Next(s, a), b), rest)
  {
    assert ([a, b] + rest)[1..] == [b] + rest && ([b] + rest)[1..] == rest;
  }
}
