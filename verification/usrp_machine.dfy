/**
 The push-to-talk queue between the UDP service loop (the producer) and the pacer
 thread (the consumer), as a machine whose steps are the single accesses that
 either thread makes to the state they share.  A run is any interleaving.
 Times are integer microseconds read from one monotonic clock.
 */
module UsrpMachine {
  import opened Bytes

  const QUEUE_SIZE: nat := 250
  const VOICE_FRAME_BYTES: nat := 320
  const SEQUENCE_MODULUS: nat := 0x1_0000_0000

  /** A queue entry.  A voice entry remembers its position among all frames submitted. */
  datatype Item = Keyup | Voice(id: nat, frame: seq<Byte>) | Unkey

  /** What goes on the wire: header-only keyup, keyed voice, or unkey. */
  datatype Packet = Packet(sequence: nat, keyup: bool, payload: seq<Byte>)

  /** Where the one producer call in progress has got to. */
  datatype Producer =
    | Idle
    | KeyupPut(frame: seq<Byte>) | KeyupEvict(frame: seq<Byte>) | KeyupRetry(frame: seq<Byte>)
    | VoicePut(frame: seq<Byte>) | VoiceEvict(frame: seq<Byte>) | VoiceRetry(frame: seq<Byte>)
    | UnkeyDrain(closing: bool) | UnkeyPut(closing: bool, drained: bool)
    | UnkeyRedrain(closing: bool) | UnkeyRetry(closing: bool)
    | SetStop | Joining

  /** What became of frames on the producer's side, for the properties to speak about. */
  datatype Intake = Intake(
    submitted: seq<seq<Byte>>,  // frames put on the queue, in order
    evicted: seq<nat>,          // those removed to make room
    drained: seq<nat>)          // those removed by an unkey

  /** Where the pacer thread has got to. */
  datatype Stage =
    | CheckStop | CheckEmpty | Getting
    | Handling(item: Item) | VoiceReady(id: nat, frame: seq<Byte>)
    | Exited

  /** The pacer thread's own variables, and what it has sent. */
  datatype Pacer = Pacer(
    stage: Stage, keyed: bool, nextSequence: nat, clock: int, nextVoiceAt: int, interval: nat,
    sent: seq<Packet>,
    sentIds: seq<nat>,          // which submitted frame each voice packet carried
    unsentIds: seq<nat>,        // frames that found the socket closed
    resetAt: int,               // when the voice cadence was last reset
    voiceTimes: seq<int>)       // when voice was sent since then

  datatype State = State(
    queue: seq<Item>, requested: bool, stop: bool, socketOpen: bool,
    producer: Producer, intake: Intake, pacer: Pacer)

  /**
   The atomic steps.  Pacer steps carry the clock readings they make.  JoinTimeout is close()
   giving up on a pacer that still runs; whether it does or not, it then closes the socket.
   */
  datatype Event =
    | Submit(frame: seq<Byte>) | RequestUnkey(clear: bool) | Close | JoinTimeout
    | Produce
    | Consume(now: int, after: int)

  function Init(now: int, frameMillis: nat): State {
    var interval := if 1000 * frameMillis < 5000 then 5000 else 1000 * frameMillis;
    State([], false, false, true, Idle, Intake([], [], []),
          Pacer(CheckStop, false, 1, now, now, interval, [], [], [], now, []))
  }

  predicate Full(queue: seq<Item>) { |queue| >= QUEUE_SIZE }

  predicate Enabled(s: State, e: Event) {
    match e
    case Submit(_) => s.producer.Idle? && !s.stop
    case RequestUnkey(_) => s.producer.Idle?
    case Close => s.producer.Idle?
    case JoinTimeout => s.producer.Joining? && !s.pacer.stage.Exited?
    case Produce => !s.producer.Idle? && (s.producer.Joining? ==> s.pacer.stage.Exited?)
    case Consume(now, after) =>
      && s.pacer.clock <= now <= after
      && !s.pacer.stage.Exited?
      && (s.pacer.stage.VoiceReady? ==> s.pacer.nextVoiceAt <= now)
  }

  function Next(s: State, e: Event): State
    requires Enabled(s, e)
  {
    match e
    case Submit(frame) =>
      if |frame| != VOICE_FRAME_BYTES then s
      else if s.requested then s.(producer := VoicePut(frame))
      else s.(requested := true, producer := KeyupPut(frame))
    case RequestUnkey(clear) =>
      s.(requested := false, producer := if clear then UnkeyDrain(false) else UnkeyPut(false, false))
    case Close => s.(requested := false, producer := UnkeyDrain(true))
    case JoinTimeout => s.(socketOpen := false, producer := Idle)
    case Produce => NextProducer(s)
    case Consume(now, after) => NextConsumer(s, now, after)
  }

  // ----- producer ---------------------------------------------------------------

  function IdOf(item: Item): seq<nat> { if item.Voice? then [item.id] else [] }

  function PutMarker(s: State, item: Item, then_: Producer): State {
    s.(queue := s.queue + [item], producer := then_)
  }

  function PutVoice(s: State, frame: seq<Byte>): State {
    s.(queue := s.queue + [Voice(|s.intake.submitted|, frame)], producer := Idle,
       intake := s.intake.(submitted := s.intake.submitted + [frame]))
  }

  function Evict(s: State, then_: Producer): State {
    if s.queue == [] then s.(producer := then_)
    else s.(queue := s.queue[1..], producer := then_,
            intake := s.intake.(evicted := s.intake.evicted + IdOf(s.queue[0])))
  }

  function DrainOne(s: State, done: Producer): State {
    if s.queue == [] then s.(producer := done)
    else s.(queue := s.queue[1..],
            intake := s.intake.(drained := s.intake.drained + IdOf(s.queue[0])))
  }

  function AfterUnkey(closing: bool): Producer { if closing then SetStop else Idle }

  function NextProducer(s: State): State
    requires !s.producer.Idle?
  {
    match s.producer
    case Idle => s
    case KeyupPut(frame) =>
      if Full(s.queue) then s.(producer := KeyupEvict(frame)) else PutMarker(s, Keyup, VoicePut(frame))
    case KeyupEvict(frame) => Evict(s, KeyupRetry(frame))
    case KeyupRetry(frame) =>
      if Full(s.queue) then s.(producer := VoicePut(frame)) else PutMarker(s, Keyup, VoicePut(frame))
    case VoicePut(frame) =>
      if Full(s.queue) then s.(producer := VoiceEvict(frame)) else PutVoice(s, frame)
    case VoiceEvict(frame) => Evict(s, VoiceRetry(frame))
    case VoiceRetry(frame) => if Full(s.queue) then s.(producer := Idle) else PutVoice(s, frame)
    case UnkeyDrain(closing) => DrainOne(s, UnkeyPut(closing, true))
    case UnkeyPut(closing, _) =>
      if Full(s.queue) then s.(producer := UnkeyRedrain(closing)) else PutMarker(s, Unkey, AfterUnkey(closing))
    case UnkeyRedrain(closing) => DrainOne(s, UnkeyRetry(closing))
    case UnkeyRetry(closing) =>
      if Full(s.queue) then s.(producer := AfterUnkey(closing)) else PutMarker(s, Unkey, AfterUnkey(closing))
    case SetStop => s.(stop := true, producer := Joining)
    case Joining => s.(socketOpen := false, producer := Idle)
  }

  // ----- pacer ------------------------------------------------------------------

  /** Nothing happens once close() has closed the socket: neither a packet nor a change of the keyed flag. */
  function Send(p: Pacer, open: bool, keyup: bool, payload: seq<Byte>): Pacer {
    if !open then p
    else
      p.(keyed := keyup, nextSequence := (p.nextSequence + 1) % SEQUENCE_MODULUS,
         sent := p.sent + [Packet(p.nextSequence, keyup, payload)])
  }

  function ResetCadence(p: Pacer, now: int): Pacer {
    p.(nextVoiceAt := now, resetAt := now, voiceTimes := [])
  }

  function SendVoice(p: Pacer, open: bool, id: nat, frame: seq<Byte>, now: int, after: int): Pacer {
    var due := p.nextVoiceAt + p.interval;
    var q := Send(p, open, true, frame).(stage := CheckStop, nextVoiceAt := if due < after then after else due);
    if open then q.(sentIds := p.sentIds + [id], voiceTimes := p.voiceTimes + [now])
    else q.(unsentIds := p.unsentIds + [id])
  }

  function Handle(p: Pacer, open: bool, item: Item, after: int): Pacer {
    match item
    case Keyup => ResetCadence(if p.keyed then p else Send(p, open, true, []), after).(stage := CheckStop)
    case Voice(id, frame) =>
      (if p.keyed then p else ResetCadence(Send(p, open, true, []), after)).(stage := VoiceReady(id, frame))
    case Unkey => ResetCadence(if p.keyed then Send(p, open, false, []) else p, after).(stage := CheckStop)
  }

  function NextPacer(p: Pacer, open: bool, stop: bool, empty: bool, now: int, after: int): Pacer
    requires !p.stage.Exited? && (p.stage.Getting? ==> empty)
  {
    match p.stage
    case CheckStop => p.(stage := if stop then CheckEmpty else Getting)
    case CheckEmpty => p.(stage := if empty then Exited else Getting)
    case Getting => p.(stage := CheckStop)
    case Handling(item) => Handle(p, open, item, after)
    case VoiceReady(id, frame) => SendVoice(p, open, id, frame, now, after)
  }

  function NextConsumer(s: State, now: int, after: int): State
    requires !s.pacer.stage.Exited?
  {
    var p := s.pacer.(clock := after);
    if p.stage.Getting? && s.queue != [] then
      s.(queue := s.queue[1..], pacer := p.(stage := Handling(s.queue[0])))
    else
      s.(pacer := NextPacer(p, s.socketOpen, s.stop, s.queue == [], now, after))
  }

  // ----- runs -------------------------------------------------------------------

  ghost predicate Run(s: State, es: seq<Event>, t: State)
    decreases |es|
  {
    if es == [] then s == t
    else Enabled(s, es[0]) && Run(Next(s, es[0]), es[1..], t)
  }

  lemma {:induction false} RunConcat(s: State, es: seq<Event>, t: State, fs: seq<Event>, u: State)
    requires Run(s, es, t) && Run(t, fs, u)
    ensures Run(s, es + fs, u)
    decreases |es|
  {
    if es == [] {
      assert es + fs == fs;
    } else {
      hide Enabled, Next;
      assert (es + fs)[1..] == es[1..] + fs;
      RunConcat(Next(s, es[0]), es[1..], t, fs, u);
    }
  }

  /** The producer never touches what belongs to the pacer. */
  lemma ProducerKeeps(s: State, e: Event)
    requires Enabled(s, e) && !e.Consume?
    ensures Next(s, e).pacer == s.pacer
  {
  }

  /** The pacer touches nothing of the producer's, and only ever shortens the queue from the front. */
  lemma ConsumerKeeps(s: State, e: Event)
    requires Enabled(s, e) && e.Consume?
    ensures var t := Next(s, e);
            && t.requested == s.requested && t.stop == s.stop && t.socketOpen == s.socketOpen
            && t.producer == s.producer && t.intake == s.intake
            && (t.queue == s.queue || (s.queue != [] && t.queue == s.queue[1..]))
  {
    hide NextPacer;
  }

  /** Once closed, the socket stays closed. */
  lemma OpenFalls(s: State, e: Event)
    requires Enabled(s, e) && Next(s, e).socketOpen
    ensures s.socketOpen
  {
    hide NextPacer;
  }

  // ----- flags and settling -----------------------------------------------------

  /** The item the pacer has taken but not finished with, if any. */
  function InFlight(stage: Stage): seq<Item> {
    match stage
    case Handling(item) => [item]
    case VoiceReady(id, frame) => [Voice(id, frame)]
    case _ => []
  }

  predicate Submitting(p: Producer) {
    p.KeyupPut? || p.KeyupEvict? || p.KeyupRetry? || p.VoicePut? || p.VoiceEvict? || p.VoiceRetry?
  }

  predicate Unkeying(p: Producer) {
    p.UnkeyDrain? || p.UnkeyPut? || p.UnkeyRedrain? || p.UnkeyRetry?
  }

  /** Bounds and flags.  In the retry states the put cannot find the queue full. */
  predicate FlagsOk(s: State) {
    && |s.queue| <= QUEUE_SIZE
    && (s.producer.KeyupRetry? || s.producer.VoiceRetry? ==> |s.queue| < QUEUE_SIZE)
    && (s.producer.UnkeyRetry? || (s.producer.UnkeyPut? && s.producer.drained) ==> s.queue == [])
    && (Submitting(s.producer) ==> s.requested && !s.stop && |s.producer.frame| == VOICE_FRAME_BYTES)
    && (Unkeying(s.producer) || s.producer.SetStop? || s.producer.Joining? ==> !s.requested)
    && (s.stop ==> !s.requested)
    && (s.pacer.stage.CheckEmpty? || s.pacer.stage.Exited? ==> s.stop)
    && (s.producer.Joining? || !s.socketOpen ==> s.stop)
  }

  /** What acting on an item does to the radio and to the pacer's place in its loop. */
  lemma HandleEffect(p: Pacer, open: bool, item: Item, after: int)
    ensures var q := Handle(p, open, item, after);
            && q.keyed == (if open then !item.Unkey? else p.keyed)
            && q.stage == if item.Voice? then VoiceReady(item.id, item.frame) else CheckStop
  {
  }

  lemma FlagsStep(s: State, e: Event)
    requires FlagsOk(s) && Enabled(s, e)
    ensures FlagsOk(Next(s, e))
  {
    match e
    case Consume(now, after) =>
      hide Handle;
      if s.pacer.stage.Handling? { HandleEffect(s.pacer.(clock := after), s.socketOpen, s.pacer.stage.item, after); }
    case Produce => FlagsProducer(s);
    case _ =>
  }

  lemma FlagsProducer(s: State)
    requires FlagsOk(s) && !s.producer.Idle?
    ensures FlagsOk(NextProducer(s))
  {
  }

  /**
   The queue ends in an unkey, or it is empty and the item in hand is one, or nothing is left and the radio is
   unkeyed.
   */
  predicate Settles(queue: seq<Item>, p: Pacer) {
    if queue != [] then queue[|queue| - 1].Unkey?
    else if InFlight(p.stage) != [] then InFlight(p.stage)[0].Unkey?
    else !p.keyed
  }

  predicate AtRest(p: Producer) { p.Idle? || p.SetStop? || p.Joining? }

  predicate SettleOk(s: State) {
    && (s.stop && s.socketOpen ==> s.producer.Joining?)
    && (s.socketOpen ==>
          && (!s.requested && AtRest(s.producer) ==> Settles(s.queue, s.pacer))
          && (s.pacer.stage.VoiceReady? ==> s.pacer.keyed)
          && (s.pacer.stage.Exited? ==> !s.pacer.keyed))
  }

  lemma SettleStep(s: State, e: Event)
    requires FlagsOk(s) && SettleOk(s) && Enabled(s, e)
    ensures SettleOk(Next(s, e))
  {
    hide NextConsumer, NextProducer;
    match e
    case Consume(now, after) => SettleConsumer(s, now, after);
    case Produce => SettleProducer(s);
    case _ =>
  }

  lemma SettleProducer(s: State)
    requires FlagsOk(s) && SettleOk(s) && Enabled(s, Produce)
    ensures SettleOk(NextProducer(s))
  {
  }

  lemma SettleConsumer(s: State, now: int, after: int)
    requires FlagsOk(s) && SettleOk(s) && !s.pacer.stage.Exited?
    ensures SettleOk(NextConsumer(s, now, after))
  {
    hide Handle;
    if s.pacer.stage.Handling? { HandleEffect(s.pacer.(clock := after), s.socketOpen, s.pacer.stage.item, after); }
  }
}
