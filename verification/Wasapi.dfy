/** The WASAPI sound filter (mswasapi.cpp and its reader and writer): one object whose audio client
    is created, activated, started, stopped, deactivated and destroyed. Every call to the system may
    fail or answer as it likes, and notifications may arrive before any read of their flags; both are
    inputs. */
module Wasapi {
  import opened Options

  // ---------------------------------------------------------------- what the system answers

  type Client = nat

  /** The fields of a WAVEFORMATEX that the filter looks at. */
  datatype Format = Format(rate: int, channels: int, bits: int, blockAlign: int)

  datatype Support = Supported | Closest(format: Format) | Unsupported
  datatype Initialized = Success | AlreadyInitialized | Failure

  /** The answers to the question for a format, and to the second one with 16 bits. */
  datatype Query = Query(first: Support, second: Support)

  /** What creation leaves behind; it may fail with a client left. */
  datatype Creation = Creation(client: Option<Client>, ok: bool)

  /** Up to two rounds of query and Initialize. */
  datatype Negotiation = Negotiation(query: Query, initialized: Initialized,
                                     creation: Creation, query2: Query, initialized2: Initialized)

  datatype Activation = Activation(negotiation: Negotiation, bufferSizeOk: bool, service: Option<Client>)

  datatype Restart = Restart(mix: Option<Format>, creation: Creation, activation: Activation, startOk: bool)

  /** The notifications since the flags were last read: a format change, the latest change of the
      default device. */
  datatype Notice = Notice(formatChanged: bool, device: Option<(bool, bool)>)

  // ---------------------------------------------------------------- the state

  datatype Overwrite = DoNothing | Overwritten | ToDo

  /** The audio client, and the capture or render client. */
  datatype Link = Link(client: Option<Client>, service: Option<Client>, activated: bool, started: bool)

  /** The format asked for. */
  datatype Wish = Wish(rate: int, channels: int, forceRate: Overwrite, forceChannels: Overwrite)

  /** What the data is taken to be, and the format given to the last successful Initialize. */
  datatype Data = Data(bits: int, blockAlign: int, rate: int, channels: int, inUse: Option<Format>)

  datatype Flags = Flags(scheduled: bool, deviceChanged: bool, deviceAvailable: bool)

  datatype State = State(link: Link, wish: Wish, data: Data, flags: Flags)

  const UNLINKED: Link := Link(None, None, false, false)

  /** The rate and channels of the data are not initialized. */
  function Initial(rate: int, channels: int): State {
    State(UNLINKED, Wish(8000, 1, DoNothing, DoNothing), Data(16, 2, rate, channels, None), Flags(false, false, true))
  }

  function Noted(f: Flags, n: Notice): Flags {
    var scheduled := f.scheduled || n.formatChanged;
    if n.device.None? then f.(scheduled := scheduled) else Flags(scheduled, n.device.value.0, n.device.value.1)
  }

  // ---------------------------------------------------------------- formats

  function Built(w: Wish, d: Data): Format { Format(w.rate, w.channels, d.bits, d.blockAlign) }

  /** The format on which system and filter agree: the proposed one, or the closest with 16 bits. */
  function Agreed(proposed: Format, q: Query): Option<Format> {
    match q.first
    case Supported => Some(proposed)
    case Unsupported => None
    case Closest(closest) =>
      if closest.bits == 16 then Some(closest)
      else
        match q.second
        case Supported => Some(closest.(bits := 16, blockAlign := 16 * closest.channels / 8))
        case Closest(other) => Some(other)
        case Unsupported => None
  }

  /** A forced value that had to move is no longer to be done. */
  function Moved(force: Overwrite, target: int, used: int): Overwrite {
    if force == ToDo && target != used then Overwritten else force
  }

  /** The wish follows the format agreed on, if that is not the proposed one. */
  function Adjusted(w: Wish, q: Query, used: Option<Format>): Wish {
    if used.None? || !q.first.Closest? then w
    else Wish(used.value.rate, used.value.channels,
              Moved(w.forceRate, w.rate, used.value.rate), Moved(w.forceChannels, w.channels, used.value.channels))
  }

  predicate FormatUpdated(client: Option<Client>, w: Wish, mix: Option<Format>) {
    client.None? ||
    (mix.Some? &&
     (w.forceChannels == ToDo || w.forceRate == ToDo ||
      (w.forceRate == DoNothing && w.rate != mix.value.rate) ||
      (w.forceChannels == DoNothing && w.channels != mix.value.channels)))
  }

  /** The mix format where nothing is forced, or the defaults without it. */
  function BestWish(w: Wish, mix: Option<Format>): Wish {
    if mix.None? then w.(rate := 8000, channels := 1)
    else w.(rate := if w.forceRate == DoNothing then mix.value.rate else w.rate,
            channels := if w.forceChannels == DoNothing then mix.value.channels else w.channels)
  }

  function FormatSet(s: State, mix: Option<Format>): State {
    if s.link.client.None? then s
    else
      var wish := BestWish(s.wish, mix);
      s.(wish := wish, data := s.data.(bits := 16, blockAlign := 16 * wish.channels / 8))
  }

  function RateSet(s: State, rate: int, answer: Support): State {
    if s.wish.rate != rate && s.link.client.Some? && answer.Supported?
    then s.(wish := s.wish.(rate := rate, forceRate := ToDo), flags := s.flags.(scheduled := true)) else s
  }

  function ChannelsSet(s: State, channels: int, answer: Support): State {
    if s.wish.channels != channels && s.link.client.Some? && answer.Supported?
    then s.(wish := s.wish.(channels := channels, forceChannels := ToDo), flags := s.flags.(scheduled := true)) else s
  }

  // ---------------------------------------------------------------- life cycle

  predicate Creates(client: Option<Client>, c: Creation) { client.None? && c.ok && c.client.Some? }

  function Created(client: Option<Client>, c: Creation): Option<Client> { if client.Some? then client else c.client }

  datatype Bargain = Bargain(client: Option<Client>, wish: Wish, used: Option<Format>)

  /** A client in use is replaced and asked again. */
  function Negotiated(client: Option<Client>, w: Wish, d: Data, n: Negotiation): Bargain {
    var used := Agreed(Built(w, d), n.query);
    var wish := Adjusted(w, n.query, used);
    if used.None? || n.initialized.Failure? then Bargain(client, wish, None)
    else if n.initialized.Success? then Bargain(client, wish, used)
    else if !Creates(None, n.creation) then Bargain(n.creation.client, wish, None)
    else
      var used2 := Agreed(Built(wish, d), n.query2);
      Bargain(n.creation.client, Adjusted(wish, n.query2, used2), if n.initialized2.Success? then used2 else None)
  }

  function Linked(l: Link, bufferSizeOk: bool, service: Option<Client>): Link {
    if bufferSizeOk && service.Some? then l.(service := service, activated := true) else l
  }

  /** The state after a successful Initialize. */
  function TakenUp(s: State, b: Bargain, a: Activation): State
    requires b.used.Some?
  {
    State(Linked(s.link.(client := b.client), a.bufferSizeOk, a.service), b.wish,
          Data(s.data.bits, b.used.value.blockAlign, b.wish.rate, b.wish.channels, b.used), s.flags)
  }

  function Activated(s: State, a: Activation): State {
    if s.link.client.None? || s.link.activated then s
    else
      var b := Negotiated(s.link.client, s.wish, s.data, a.negotiation);
      if b.used.None? then s.(link := s.link.(client := b.client), wish := b.wish) else TakenUp(s, b, a)
  }

  function Deactivated(l: Link): Link { l.(service := None, activated := false) }

  function Started(l: Link, ok: bool): Link { if !l.started && l.activated && ok then l.(started := true) else l }

  function Stopped(l: Link): Link { if l.activated then l.(started := false) else l }

  /** Torn down, then created anew: the state in which a restart activates. */
  function Renewed(s: State, r: Restart): State {
    FormatSet(s, r.mix).(link := Deactivated(Stopped(s.link)).(client := r.creation.client))
  }

  function Restarted(s: State, r: Restart): State {
    if !Creates(None, r.creation) then Renewed(s, r)
    else
      var t := Activated(Renewed(s, r), r.activation);
      t.(link := Started(t.link, r.startOk))
  }

  function TornDown(l: Link): Link { Deactivated(Stopped(l)).(client := None) }

  /** What arrived before each of the three reads of the flags in a device check. */
  datatype Arrivals = Arrivals(beforeChanged: Notice, beforeTeardown: Notice, beforeReturn: Notice)

  /** The flags when a change has been acknowledged, if there was one. */
  function FlagsRead(f: Flags, n: Arrivals): Flags {
    var f1 := Noted(f, n.beforeChanged);
    if f1.deviceChanged then Noted(f1.(deviceChanged := false, scheduled := true), n.beforeTeardown) else f1
  }

  predicate Gone(f: Flags, n: Arrivals) {
    Noted(f, n.beforeChanged).deviceChanged && !FlagsRead(f, n).deviceAvailable
  }

  /** When the default device has gone, everything is torn down; it may be back at the return. */
  function DeviceChecked(s: State, n: Arrivals): State {
    s.(flags := Noted(FlagsRead(s.flags, n), n.beforeReturn), link := CheckedLink(s.link, Gone(s.flags, n)))
  }

  function CheckedLink(l: Link, gone: bool): Link { if gone then TornDown(l) else l }

  function Settled(w: Wish): Wish {
    w.(forceRate := if w.forceRate == ToDo then Overwritten else w.forceRate,
       forceChannels := if w.forceChannels == ToDo then Overwritten else w.forceChannels)
  }

  predicate Updates(s: State, mix: Option<Format>) {
    s.flags.scheduled && FormatUpdated(s.link.client, s.wish, mix)
  }

  /** A restart that fails is scheduled again; one that succeeds has done what was forced. */
  function FormatTried(s: State, mix: Option<Format>, r: Restart): State {
    if !Updates(s, mix) then s.(flags := s.flags.(scheduled := false))
    else
      var t := Restarted(s, r);
      if t.link.activated then t.(wish := Settled(t.wish), flags := s.flags.(scheduled := false)) else t
  }

  // ---------------------------------------------------------------- the filter

  // A call on a null client would crash: calls need one.

  method Call(client: Option<Client>)
    requires client.Some?
  {
  }

  class Filter {
    var client: Option<Client>
    /** The capture or render client. */
    var service: Option<Client>
    var activated: bool
    var started: bool
    var targetRate: int
    var targetChannels: int
    var forceRate: Overwrite
    var forceChannels: Overwrite
    var bits: int
    var blockAlign: int
    var currentRate: int
    var currentChannels: int
    var scheduled: bool
    var deviceChanged: bool
    var deviceAvailable: bool
    var inUse: Option<Format>

    ghost function TheLink(): Link reads this { Link(client, service, activated, started) }
    ghost function TheWish(): Wish reads this { Wish(targetRate, targetChannels, forceRate, forceChannels) }
    ghost function TheData(): Data reads this { Data(bits, blockAlign, currentRate, currentChannels, inUse) }
    ghost function TheFlags(): Flags reads this { Flags(scheduled, deviceChanged, deviceAvailable) }
    ghost function Abstract(): State reads this { State(TheLink(), TheWish(), TheData(), TheFlags()) }

    constructor (rate: int, channels: int)
      ensures Abstract() == Initial(rate, channels)
    {
      client, service, inUse := None, None, None;
      activated, started := false, false;
      targetRate, targetChannels, bits, blockAlign := 8000, 1, 16, 2;
      forceRate, forceChannels := DoNothing, DoNothing;
      currentRate, currentChannels := rate, channels;
      scheduled, deviceChanged, deviceAvailable := false, false, true;
    }

    method Notify(n: Notice)
      modifies `scheduled, `deviceChanged, `deviceAvailable
      ensures TheFlags() == Noted(old(TheFlags()), n)
    {
      if n.formatChanged { scheduled := true; }
      if n.device.Some? { deviceChanged, deviceAvailable := n.device.value.0, n.device.value.1; }
    }

    method PrepareInitialize(q: Query) returns (used: Option<Format>)
      requires client.Some?
      modifies `targetRate, `targetChannels, `forceRate, `forceChannels
      ensures used == Agreed(Built(old(TheWish()), TheData()), q) && TheWish() == Adjusted(old(TheWish()), q, used)
    {
      Call(client);                                      // GetDevicePeriod
      var proposed := Format(targetRate, targetChannels, bits, blockAlign);
      Call(client);                                      // IsFormatSupported
      match q.first {
        case Supported => return Some(proposed);
        case Unsupported => return None;
        case Closest(closest) =>
          used := Some(closest);
          if closest.bits != 16 {
            used := Some(closest.(bits := 16, blockAlign := 16 * closest.channels / 8));
            Call(client);                                // IsFormatSupported
            match q.second {
              case Supported =>
              case Closest(other) => used := Some(other);
              case Unsupported => return None;
            }
          }
          if targetChannels != used.value.channels {
            targetChannels := used.value.channels;
            if forceChannels == ToDo { forceChannels := Overwritten; }
          }
          if targetRate != used.value.rate {
            targetRate := used.value.rate;
            if forceRate == ToDo { forceRate := Overwritten; }
          }
      }
    }

    method UpdateFormat(useBestFormat: bool, mix: Option<Format>)
      modifies `targetRate, `targetChannels, `bits, `blockAlign
      ensures Abstract() == FormatSet(old(Abstract()), if useBestFormat then mix else None)
    {
      if client.None? {
        return;
      }
      var best := false;
      if useBestFormat {
        Call(client);                                    // GetMixFormat
        if mix.Some? {
          if forceRate == DoNothing && targetRate != mix.value.rate { targetRate := mix.value.rate; }
          if forceChannels == DoNothing && targetChannels != mix.value.channels { targetChannels := mix.value.channels; }
          best := true;
        }
      }
      if bits != 16 { bits := 16; }
      if !best {
        if targetRate != 8000 { targetRate := 8000; }
        if targetChannels != 1 { targetChannels := 1; }
      }
      blockAlign := bits * targetChannels / 8;
    }

    method IsFormatUpdated(mix: Option<Format>) returns (changed: bool)
      ensures changed == FormatUpdated(client, TheWish(), mix)
    {
      if client.None? {
        return true;
      }
      Call(client);                                      // GetMixFormat
      if mix.None? {
        return false;
      }
      changed := forceChannels == ToDo || forceRate == ToDo ||
                 (forceRate == DoNothing && targetRate != mix.value.rate) ||
                 (forceChannels == DoNothing && targetChannels != mix.value.channels);
    }

    /** A change of rate moves the target only; the data keeps its format until the next restart. */
    method SetRate(rate: int, answer: Support)
      modifies `targetRate, `forceRate, `scheduled
      ensures Abstract() == RateSet(old(Abstract()), rate, answer)
    {
      if targetRate != rate && client.Some? {
        var previous := targetRate;
        targetRate := rate;
        Call(client);                                    // IsFormatSupported
        if answer.Supported? {
          forceRate, scheduled := ToDo, true;
        } else {
          targetRate := previous;
        }
      }
    }

    method SetNChannels(channels: int, answer: Support)
      modifies `targetChannels, `forceChannels, `scheduled
      ensures Abstract() == ChannelsSet(old(Abstract()), channels, answer)
    {
      if targetChannels != channels && client.Some? {
        var previous := targetChannels;
        targetChannels := channels;
        Call(client);                                    // IsFormatSupported
        if answer.Supported? {
          forceChannels, scheduled := ToDo, true;
        } else {
          targetChannels := previous;
        }
      }
    }

    method CreateAudioClient(c: Creation) returns (ok: bool)
      modifies `client
      ensures ok == Creates(old(client), c) && client == Created(old(client), c)
    {
      if client.Some? {
        return false;
      }
      client := c.client;
      ok := c.ok && client.Some?;
    }

    method DestroyAudioClient()
      modifies `client
      ensures client.None?
    {
      client := None;
    }

    /** The part of `activate` up to the second Initialize. */
    method Negotiate(n: Negotiation) returns (used: Option<Format>)
      requires client.Some?
      modifies `client, `targetRate, `targetChannels, `forceRate, `forceChannels
      ensures Bargain(client, TheWish(), used) == Negotiated(old(client), old(TheWish()), TheData(), n)
    {
      used := PrepareInitialize(n.query);
      if used.None? {
        return;
      }
      Call(client);                                      // Initialize
      var answer := n.initialized;
      if answer.AlreadyInitialized? {
        DestroyAudioClient();
        var created := CreateAudioClient(n.creation);
        if !created {
          return None;
        }
        used := PrepareInitialize(n.query2);
        if used.None? {
          return;
        }
        Call(client);                                    // Initialize
        answer := n.initialized2;
      }
      if !answer.Success? {
        used := None;
      }
    }

    method Activate(a: Activation) returns (ok: bool)
      requires LifeCycle(TheLink(), TheData())
      modifies this
      ensures Abstract() == Activated(old(Abstract()), a) && ok == activated
      ensures LifeCycle(TheLink(), TheData())
    {
      if client.None? {
        return false;
      }
      if activated {
        return true;
      }
      ghost var was := Abstract();
      var used := Negotiate(a.negotiation);
      BargainKeepsClient(was.link.client, was.wish, was.data, a.negotiation);
      if used.None? {
        if client.Some? { Call(client); }                // Reset
        return false;
      }
      ok := TakeUp(used.value, a);
      if !ok { Call(client); }                           // Reset
    }

    /** The part of `activate` behind a successful Initialize. */
    method TakeUp(used: Format, a: Activation) returns (ok: bool)
      requires client.Some? && !activated
      modifies `blockAlign, `currentRate, `currentChannels, `inUse, `service, `activated
      ensures TheLink() == Linked(old(TheLink()), a.bufferSizeOk, a.service) && ok == activated
      ensures TheData() == Data(bits, used.blockAlign, targetRate, targetChannels, Some(used))
    {
      inUse := Some(used);
      blockAlign := used.blockAlign;
      currentRate, currentChannels := targetRate, targetChannels;
      Call(client);                                      // GetBufferSize
      if !a.bufferSizeOk {
        return false;
      }
      Call(client);                                      // GetService
      if a.service.None? {
        return false;
      }
      service := a.service;
      activated := true;
      ok := true;
    }

    method Deactivate()
      modifies `service, `activated
      ensures TheLink() == Deactivated(old(TheLink()))
    {
      service := None;
      activated := false;
    }

    method Start(ok: bool)
      requires activated ==> client.Some?
      modifies `started
      ensures TheLink() == Started(old(TheLink()), ok)
    {
      if !started && activated {
        Call(client);                                    // Start
        if !ok {
          return;
        }
        started := true;
      }
    }

    method Stop()
      requires activated ==> client.Some?
      modifies `started
      ensures TheLink() == Stopped(old(TheLink()))
    {
      if started && activated {
        started := false;
        Call(client);                                    // Stop
      }
    }

    method RestartAudioClient(r: Restart) returns (ok: bool)
      requires LifeCycle(TheLink(), TheData())
      modifies this
      ensures Abstract() == Restarted(old(Abstract()), r) && ok == activated
    {
      Stop();
      Deactivate();
      UpdateFormat(true, r.mix);
      DestroyAudioClient();
      var created := CreateAudioClient(r.creation);
      assert Abstract() == Renewed(old(Abstract()), r);
      if !created {
        return false;
      }
      ok := Activate(r.activation);
      if ok {
        Start(r.startOk);
      }
    }

    /** The flag is taken back and an update scheduled; a further notification may follow at once. */
    method Acknowledge(later: Notice)
      modifies `scheduled, `deviceChanged, `deviceAvailable
      ensures TheFlags() == Noted(old(TheFlags()).(deviceChanged := false, scheduled := true), later)
    {
      deviceChanged := false;
      scheduled := true;
      Notify(later);
    }

    method TearDown()
      requires LifeCycle(TheLink(), TheData())
      modifies `client, `service, `activated, `started
      ensures TheLink() == TornDown(old(TheLink()))
    {
      Stop();
      Deactivate();
      DestroyAudioClient();
    }

    method CheckDefaultDevice(n: Arrivals) returns (available: bool)
      requires LifeCycle(TheLink(), TheData())
      modifies `client, `service, `activated, `started, `scheduled, `deviceChanged, `deviceAvailable
      ensures TheFlags() == Noted(FlagsRead(old(TheFlags()), n), n.beforeReturn) && available == deviceAvailable
      ensures TheLink() == CheckedLink(old(TheLink()), Gone(old(TheFlags()), n))
    {
      Notify(n.beforeChanged);
      if deviceChanged {
        Acknowledge(n.beforeTeardown);
        if !deviceAvailable {
          TearDown();
        }
      }
      Notify(n.beforeReturn);
      available := deviceAvailable;
    }

    method TryToUpdateFormat(mix: Option<Format>, r: Restart) returns (ok: bool)
      requires LifeCycle(TheLink(), TheData())
      modifies this
      ensures Abstract() == FormatTried(old(Abstract()), mix, r)
      ensures ok <==> !Updates(old(Abstract()), mix) || activated
    {
      ok := true;
      if scheduled {
        scheduled := false;
        var changed := IsFormatUpdated(mix);
        if changed {
          RestartKeepsFlags(Abstract(), old(Abstract()), r);
          ok := RestartAudioClient(r);
          if !ok {
            scheduled := true;
            return;
          }
          if forceChannels == ToDo { forceChannels := Overwritten; }
          if forceRate == ToDo { forceRate := Overwritten; }
        }
      }
    }

    /** The reader's and the writer's `feed`: every turn works on both clients, in frames of the
        format in use. */
    method Feed(frames: seq<nat>) returns (bytes: seq<int>)
      requires LifeCycle(TheLink(), TheData())
      ensures started && Described(TheData()) ==>
        |bytes| == |frames| && forall i | 0 <= i < |frames| :: bytes[i] == frames[i] * inUse.value.blockAlign
      ensures !started ==> bytes == []
    {
      bytes := [];
      if started {
        var bytesPerFrame := blockAlign;
        for i := 0 to |frames|
          invariant |bytes| == i && forall k | 0 <= k < i :: bytes[k] == frames[k] * bytesPerFrame
        {
          Call(client);
          Call(service);
          bytes := bytes + [frames[i] * bytesPerFrame];
        }
      }
    }

    // -------------------------------------------------------------- filter callbacks

    method Init(c: Creation, mix: Option<Format>)
      modifies this
      ensures Abstract() == Next(old(Abstract()), Callback.Init(c, mix))
    {
      var created := CreateAudioClient(c);
      UpdateFormat(created, mix);
    }

    method Preprocess(a: Activation, startOk: bool)
      requires LifeCycle(TheLink(), TheData())
      modifies this
      ensures Abstract() == Next(old(Abstract()), Callback.Preprocess(a, startOk))
    {
      var ok := Activate(a);
      if ok {
        Start(startOk);
      }
    }

    method Process(n: Arrivals, mix: Option<Format>, r: Restart, frames: seq<nat>)
      requires LifeCycle(TheLink(), TheData())
      modifies this
      ensures Abstract() == Next(old(Abstract()), Callback.Process(n, mix, r))
    {
      var available := CheckDefaultDevice(n);
      assert Abstract() == DeviceChecked(old(Abstract()), n);
      CheckKeepsLifeCycle(old(Abstract()), n);
      if available {
        UpdateKeepsLifeCycle(Abstract(), mix, r);
        var ok := TryToUpdateFormat(mix, r);
        if ok {
          var _ := Feed(frames);
        }
      }
    }

    method Postprocess()
      requires LifeCycle(TheLink(), TheData())
      modifies `service, `activated, `started
      ensures Abstract() == Next(old(Abstract()), Callback.Postprocess)
    {
      Stop();
      Deactivate();
    }
  }

  // ---------------------------------------------------------------- the life cycle holds in every run

  datatype Callback =
    | Init(creation: Creation, mix: Option<Format>)
    | Preprocess(activation: Activation, startOk: bool)
    | Process(arrivals: Arrivals, mix: Option<Format>, restart: Restart)
    | Postprocess
    | SetRate(rate: int, answer: Support)
    | SetNChannels(channels: int, answer: Support)
    | Notified(notice: Notice)

  /** One callback; `process` leaves the format alone while there is no device. */
  function Next(s: State, e: Callback): State {
    match e
    case Init(c, mix) =>
      FormatSet(s.(link := s.link.(client := Created(s.link.client, c))), if Creates(s.link.client, c) then mix else None)
    case Preprocess(a, startOk) => var t := Activated(s, a); t.(link := Started(t.link, startOk))
    case Process(n, mix, r) =>
      var checked := DeviceChecked(s, n);
      if checked.flags.deviceAvailable then FormatTried(checked, mix, r) else checked
    case Postprocess => s.(link := Deactivated(Stopped(s.link)))
    case SetRate(rate, answer) => RateSet(s, rate, answer)
    case SetNChannels(channels, answer) => ChannelsSet(s, channels, answer)
    case Notified(n) => s.(flags := Noted(s.flags, n))
  }

  function Run(s: State, events: seq<Callback>): State
    decreases |events|
  {
    if events == [] then s else Run(Next(s, events[0]), events[1..])
  }

  /** The filter is initialized once, before anything else. */
  predicate AfterInit(events: seq<Callback>) { forall e | e in events :: !e.Init? }

  /** Started implies activated, activated implies both clients. */
  predicate LifeCycle(l: Link, d: Data) {
    && (l.started ==> l.activated)
    && (l.activated ==> l.client.Some? && l.service.Some? && d.inUse.Some?)
  }

  lemma BargainKeepsClient(client: Option<Client>, w: Wish, d: Data, n: Negotiation)
    requires client.Some?
    ensures
      var b := Negotiated(client, w, d, n);
      b.used.Some? ==> b.client.Some? && b.wish.rate == b.used.value.rate && b.wish.channels == b.used.value.channels
  {
  }

  lemma ActivationKeepsLifeCycle(s: State, a: Activation)
    requires LifeCycle(s.link, s.data)
    ensures LifeCycle(Activated(s, a).link, Activated(s, a).data)
  {
    if s.link.client.Some? { BargainKeepsClient(s.link.client, s.wish, s.data, a.negotiation); }
  }

  lemma RestartKeepsLifeCycle(s: State, r: Restart)
    requires LifeCycle(s.link, s.data)
    ensures LifeCycle(Restarted(s, r).link, Restarted(s, r).data)
  {
    ActivationKeepsLifeCycle(Renewed(s, r), r.activation);
  }

  /** A restart neither reads nor changes the flags. */
  lemma RestartKeepsFlags(s: State, t: State, r: Restart)
    requires t == s.(flags := t.flags)
    ensures Restarted(t, r) == Restarted(s, r).(flags := t.flags) && Restarted(s, r).flags == s.flags
  {
  }

  lemma CheckKeepsLifeCycle(s: State, n: Arrivals)
    requires LifeCycle(s.link, s.data)
    ensures LifeCycle(DeviceChecked(s, n).link, DeviceChecked(s, n).data)
  {
  }

  /** An update that fails leaves the filter deactivated and the update scheduled. */
  lemma UpdateKeepsLifeCycle(s: State, mix: Option<Format>, r: Restart)
    requires LifeCycle(s.link, s.data)
    ensures LifeCycle(FormatTried(s, mix, r).link, FormatTried(s, mix, r).data)
    ensures Updates(s, mix) ==> (FormatTried(s, mix, r).flags.scheduled <==> !FormatTried(s, mix, r).link.activated)
  {
    RestartKeepsLifeCycle(s, r);
    RestartKeepsFlags(s, s, r);
  }

  lemma StepKeepsLifeCycle(s: State, e: Callback)
    requires LifeCycle(s.link, s.data)
    ensures LifeCycle(Next(s, e).link, Next(s, e).data)
  {
    match e
    case Preprocess(a, startOk) => ActivationKeepsLifeCycle(s, a);
    case Process(n, mix, r) =>
      CheckKeepsLifeCycle(s, n);
      UpdateKeepsLifeCycle(DeviceChecked(s, n), mix, r);
    case _ =>
  }

  /** Main result: in every run, whatever the system answers and whenever notifications arrive. */
  lemma {:induction false} RunKeepsLifeCycle(s: State, events: seq<Callback>)
    requires LifeCycle(s.link, s.data)
    ensures LifeCycle(Run(s, events).link, Run(s, events).data)
    decreases |events|
  {
    if events != [] {
      StepKeepsLifeCycle(s, events[0]);
      RunKeepsLifeCycle(Next(s, events[0]), events[1..]);
    }
  }

  // ---------------------------------------------------------------- the data is described by the format in use

  /** Frame size, rate and channels are those of the format in use. */
  predicate Described(d: Data) {
    && d.inUse.Some? && d.blockAlign == d.inUse.value.blockAlign
    && d.rate == d.inUse.value.rate && d.channels == d.inUse.value.channels
  }

  lemma ActivationDescribes(s: State, a: Activation)
    requires !s.link.activated && Activated(s, a).link.activated
    ensures Described(Activated(s, a).data)
  {
    BargainKeepsClient(s.link.client, s.wish, s.data, a.negotiation);
  }

  lemma RestartDescribes(s: State, r: Restart)
    requires Restarted(s, r).link.activated
    ensures Described(Restarted(s, r).data)
  {
    ActivationDescribes(Renewed(s, r), r.activation);
  }

  predicate Sound(s: State) { s.link.activated ==> Described(s.data) }

  lemma UpdateDescribes(s: State, mix: Option<Format>, r: Restart)
    requires Sound(s)
    ensures Sound(FormatTried(s, mix, r))
  {
    if Restarted(s, r).link.activated { RestartDescribes(s, r); }
  }

  lemma StepDescribes(s: State, e: Callback)
    requires Sound(s) && (e.Init? ==> !s.link.activated)
    ensures Sound(Next(s, e))
  {
    match e
    case Preprocess(a, startOk) =>
      if !s.link.activated && Activated(s, a).link.activated { ActivationDescribes(s, a); }
    case Process(n, mix, r) => UpdateDescribes(DeviceChecked(s, n), mix, r);
    case _ =>
  }

  /** Main result: when callbacks do not interleave, as in the reader, which holds the filter's lock in
      all of them, every run keeps the data described. */
  lemma {:induction false} RunDescribes(s: State, events: seq<Callback>)
    requires Sound(s) && AfterInit(events)
    ensures Sound(Run(s, events))
    decreases |events|
  {
    if events != [] {
      StepDescribes(s, events[0]);
      RunDescribes(Next(s, events[0]), events[1..]);
    }
  }

  /** A filter from its constructor on: both results for all its runs. */
  lemma FilterRuns(rate: int, channels: int, c: Creation, mix: Option<Format>, events: seq<Callback>)
    requires AfterInit(events)
    ensures
      var s := Run(Initial(rate, channels), [Callback.Init(c, mix)] + events);
      LifeCycle(s.link, s.data) && Sound(s)
  {
    var s := Next(Initial(rate, channels), Callback.Init(c, mix));
    assert ([Callback.Init(c, mix)] + events)[1..] == events;
    RunKeepsLifeCycle(s, events);
    RunDescribes(s, events);
  }

  /** A process callback repairs data that is not described exactly when it tears the filter down or
      restarts it. */
  lemma RepairedExactlyByRestart(s: State, n: Arrivals, mix: Option<Format>, r: Restart)
    requires LifeCycle(s.link, s.data) && !Sound(s)
    ensures
      var checked := DeviceChecked(s, n);
      Sound(Next(s, Process(n, mix, r))) <==>
        Gone(s.flags, n) || (checked.flags.deviceAvailable && Updates(checked, mix))
  {
    var checked := DeviceChecked(s, n);
    if Gone(s.flags, n) {
      UpdateDescribes(checked, mix, r);
    } else if Restarted(checked, r).link.activated {
      RestartDescribes(checked, r);
    }
  }

  // ---------------------------------------------------------------- what callbacks bring about

  /** What system and filter agree on: the proposed format, the closest one the system offers if it has
      16 bits, and otherwise that one brought to 16 bits, or the closest to it. */
  lemma AgreedMeans(proposed: Format, q: Query)
    ensures q.first.Supported? ==> Agreed(proposed, q) == Some(proposed)
    ensures q.first.Unsupported? ==> Agreed(proposed, q) == None
    ensures q.first.Closest? && q.first.format.bits == 16 ==> Agreed(proposed, q) == Some(q.first.format)
    ensures q.first.Closest? && q.first.format.bits != 16 ==>
      match q.second
      case Supported =>
        && Agreed(proposed, q).Some? && Consistent(Agreed(proposed, q).value) && Agreed(proposed, q).value.bits == 16
        && Agreed(proposed, q).value.rate == q.first.format.rate
        && Agreed(proposed, q).value.channels == q.first.format.channels
      case Closest(other) => Agreed(proposed, q) == Some(other)
      case Unsupported => Agreed(proposed, q) == None
  {
  }

  /** A target that has to give way is followed, and a forced one is not forced any more. */
  lemma ForcedTargetGivesWay(w: Wish, q: Query, used: Format)
    requires q.first.Closest?
    ensures
      var t := Adjusted(w, q, Some(used));
      && t.rate == used.rate && t.channels == used.channels
      && (w.forceRate == ToDo ==> (t.forceRate == ToDo <==> w.rate == used.rate))
      && (w.forceChannels == ToDo ==> (t.forceChannels == ToDo <==> w.channels == used.channels))
      && (w.forceRate != ToDo ==> t.forceRate == w.forceRate)
      && (w.forceChannels != ToDo ==> t.forceChannels == w.forceChannels)
  {
  }

  /** An activation succeeds exactly when a format is agreed on, Initialize accepts it, on this client or on
      a new one if this one is in use, and buffer size and service are given. */
  lemma ActivatesExactly(s: State, a: Activation)
    requires s.link.client.Some? && !s.link.activated
    ensures
      var n := a.negotiation;
      var used := Agreed(Built(s.wish, s.data), n.query);
      Activated(s, a).link.activated <==>
        && a.bufferSizeOk && a.service.Some? && used.Some?
        && (n.initialized.Success? ||
            (n.initialized.AlreadyInitialized? && n.creation.ok && n.creation.client.Some? && n.initialized2.Success? &&
             Agreed(Built(Adjusted(s.wish, n.query, used), s.data), n.query2).Some?))
  {
  }

  /** The system agrees to everything. */
  predicate Willing(a: Activation) {
    && a.negotiation.query.first.Supported? && a.negotiation.initialized.Success?
    && a.bufferSizeOk && a.service.Some?
  }

  predicate WillingRestart(r: Restart) { Creates(None, r.creation) && Willing(r.activation) && r.startOk }

  /** A willing system lets preprocess play in the wished format. */
  lemma PreprocessPlays(s: State, a: Activation)
    requires LifeCycle(s.link, s.data) && s.link.client.Some? && !s.link.activated && Willing(a)
    ensures
      var t := Next(s, Preprocess(a, true));
      && t.link == Link(s.link.client, a.service, true, true) && t.wish == s.wish && t.flags == s.flags
      && t.data == Data(s.data.bits, s.data.blockAlign, s.wish.rate, s.wish.channels, Some(Built(s.wish, s.data)))
  {
  }

  lemma PostprocessEnds(s: State)
    requires LifeCycle(s.link, s.data)
    ensures Next(s, Postprocess) == s.(link := Link(s.link.client, None, false, false))
  {
  }

  /** A restart with a willing system plays in the best format: what is forced, else the mix format. */
  lemma RestartPlays(s: State, r: Restart, mix: Format)
    requires LifeCycle(s.link, s.data) && s.link.client.Some? && WillingRestart(r) && r.mix == Some(mix)
    ensures
      var t := Restarted(s, r);
      var rate := if s.wish.forceRate == DoNothing then mix.rate else s.wish.rate;
      var channels := if s.wish.forceChannels == DoNothing then mix.channels else s.wish.channels;
      && t.link == Link(r.creation.client, r.activation.service, true, true)
      && t.wish == s.wish.(rate := rate, channels := channels)
      && t.data == Data(16, 2 * channels, rate, channels, Some(Format(rate, channels, 16, 2 * channels)))
      && t.flags == s.flags
  {
    var u := Renewed(s, r);
    assert u.link == Link(r.creation.client, None, false, false);
    PreprocessPlays(u, r.activation);
  }

  const QUIET: Notice := Notice(false, None)
  const NOTHING: Arrivals := Arrivals(QUIET, QUIET, QUIET)

  predicate DeviceThere(f: Flags) { f.deviceAvailable && !f.deviceChanged }

  lemma QuietCheck(s: State)
    requires DeviceThere(s.flags)
    ensures DeviceChecked(s, NOTHING) == s
  {
  }

  /** With nothing due, a process callback leaves the filter alone. */
  lemma NothingDue(s: State, mix: Option<Format>, r: Restart)
    requires DeviceThere(s.flags) && !s.flags.scheduled
    ensures Next(s, Process(NOTHING, mix, r)) == s
  {
    QuietCheck(s);
  }

  /** Nothing is to be forced, and what is not forced is as in the mix format. */
  predicate AsInMix(w: Wish, mix: Format) {
    && w.forceRate != ToDo && w.forceChannels != ToDo
    && (w.forceRate == DoNothing ==> w.rate == mix.rate) && (w.forceChannels == DoNothing ==> w.channels == mix.channels)
  }

  /** A due update is dropped when the format has not changed where it is not forced, or is not told. */
  lemma UnchangedFormatStays(s: State, mix: Option<Format>, r: Restart)
    requires DeviceThere(s.flags) && s.link.client.Some? && (mix.None? || AsInMix(s.wish, mix.value))
    ensures Next(s, Process(NOTHING, mix, r)) == s.(flags := s.flags.(scheduled := false))
  {
    QuietCheck(s);
  }

  lemma DueUpdate(s: State, mix: Option<Format>, r: Restart)
    requires DeviceThere(s.flags) && Updates(s, mix) && Restarted(s, r).link.activated
    ensures
      var t := Restarted(s, r);
      Next(s, Process(NOTHING, mix, r)) == t.(wish := Settled(t.wish), flags := s.flags.(scheduled := false))
  {
    QuietCheck(s);
  }

  /** Main result: a rate the device supports is the rate of the data after the next update, and stays. */
  lemma SupportedRateIsUsed(s: State, rate: int, mix: Format, r: Restart)
    requires LifeCycle(s.link, s.data) && s.link.client.Some? && DeviceThere(s.flags) && s.wish.rate != rate
    requires WillingRestart(r) && r.mix == Some(mix)
    ensures
      var t := Next(Next(s, SetRate(rate, Supported)), Process(NOTHING, Some(mix), r));
      && t.link.started && t.data.rate == rate && t.data.inUse.Some? && t.data.inUse.value.rate == rate
      && t.wish.rate == rate && t.wish.forceRate == Overwritten && !t.flags.scheduled
  {
    var u := Next(s, SetRate(rate, Supported));
    RestartPlays(u, r, mix);
    DueUpdate(u, Some(mix), r);
  }

  lemma SupportedChannelsAreUsed(s: State, channels: int, mix: Format, r: Restart)
    requires LifeCycle(s.link, s.data) && s.link.client.Some? && DeviceThere(s.flags) && s.wish.channels != channels
    requires WillingRestart(r) && r.mix == Some(mix)
    ensures
      var t := Next(Next(s, SetNChannels(channels, Supported)), Process(NOTHING, Some(mix), r));
      && t.link.started && t.data.channels == channels && t.data.blockAlign == 2 * channels
      && t.data.inUse.Some? && t.data.inUse.value.channels == channels
      && t.wish.channels == channels && t.wish.forceChannels == Overwritten && !t.flags.scheduled
  {
    var u := Next(s, SetNChannels(channels, Supported));
    RestartPlays(u, r, mix);
    DueUpdate(u, Some(mix), r);
  }

  /** A setter without a client, without a change, or for what the device does not support does nothing. */
  lemma RefusedSetterDoesNothing(s: State, value: int, answer: Support)
    requires s.link.client.None? || !answer.Supported?
    ensures Next(s, SetRate(value, answer)) == s && Next(s, SetNChannels(value, answer)) == s
    ensures Next(s, SetRate(s.wish.rate, Supported)) == s && Next(s, SetNChannels(s.wish.channels, Supported)) == s
  {
  }

  /** A format changed in the system becomes the format of the data where nothing is forced. */
  lemma SystemFormatIsFollowed(s: State, mix: Format, r: Restart)
    requires LifeCycle(s.link, s.data) && s.link.client.Some? && DeviceThere(s.flags)
    requires !AsInMix(s.wish, mix) && WillingRestart(r) && r.mix == Some(mix)
    ensures
      var t := Next(Next(s, Notified(Notice(true, None))), Process(NOTHING, Some(mix), r));
      var rate := if s.wish.forceRate == DoNothing then mix.rate else s.wish.rate;
      var channels := if s.wish.forceChannels == DoNothing then mix.channels else s.wish.channels;
      && t.link.started && !t.flags.scheduled && AsInMix(t.wish, mix)
      && t.data == Data(16, 2 * channels, rate, channels, Some(Format(rate, channels, 16, 2 * channels)))
  {
    var u := Next(s, Notified(Notice(true, None)));
    assert u == s.(flags := s.flags.(scheduled := true));
    RestartPlays(u, r, mix);
    DueUpdate(u, Some(mix), r);
  }

  /** The loss of the default device tears everything down and leaves an update due. */
  lemma DeviceLossTearsDown(s: State, mix: Option<Format>, r: Restart)
    requires LifeCycle(s.link, s.data)
    ensures
      var t := Next(Next(s, Notified(Notice(false, Some((true, false))))), Process(NOTHING, mix, r));
      t == s.(link := UNLINKED, flags := Flags(true, false, false))
  {
  }

  /** When a device is back, a willing system lets the filter play again. */
  lemma DeviceReturnPlays(s: State, mix: Option<Format>, r: Restart)
    requires s.link == UNLINKED && WillingRestart(r)
    ensures
      var t := Next(Next(s, Notified(Notice(false, Some((true, true))))), Process(NOTHING, mix, r));
      t.link == Link(r.creation.client, r.activation.service, true, true) && t.flags == Flags(false, false, true)
  {
    var u := Next(s, Notified(Notice(false, Some((true, true)))));
    var v := DeviceChecked(u, NOTHING);
    assert v == s.(flags := Flags(true, false, true));
    var w := Renewed(v, r);
    assert w.link == Link(r.creation.client, None, false, false);
    PreprocessPlays(w, r.activation);
  }

  /** A new filter wishes for the mix format of its device, and for the defaults without it. */
  lemma InitWishes(rate: int, channels: int, c: Creation, mix: Option<Format>)
    ensures
      var t := Next(Initial(rate, channels), Callback.Init(c, mix));
      && t.link == UNLINKED.(client := c.client)
      && (c.ok && c.client.Some? && mix.Some? ==>
            t.wish == Wish(mix.value.rate, mix.value.channels, DoNothing, DoNothing) &&
            t.data.blockAlign == 2 * mix.value.channels)
      && (!c.ok || c.client.None? || mix.None? ==>
            t.wish == Wish(8000, 1, DoNothing, DoNothing) && t.data.blockAlign == 2)
      && t.data.bits == 16
  {
  }

  // ---------------------------------------------------------------- consistent formats

  predicate Consistent(f: Format) { f.blockAlign == f.bits * f.channels / 8 }

  /** A restart proposes a consistent format exactly when it had a client to ask, or one already. */
  lemma RestartProposesConsistent(s: State, r: Restart)
    ensures Consistent(Built(Renewed(s, r).wish, Renewed(s, r).data)) <==>
            s.link.client.Some? || Consistent(Built(s.wish, s.data))
  {
  }

  /** A change of channels asks the system about a format with the frame size of the old channels. */
  lemma ChannelChangeAsksInconsistent(w: Wish, d: Data, channels: int)
    requires d.bits == 16 && Consistent(Built(w, d)) && channels != w.channels
    ensures !Consistent(Built(w.(channels := channels), d))
  {
  }
}
