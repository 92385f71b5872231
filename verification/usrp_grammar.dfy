/** The packets on the wire always spell a prefix of (keyup voice* unkey)*, numbered consecutively. */
module UsrpGrammar {
  import opened Bytes
  import opened UsrpMachine
  import opened UsrpVoice

  datatype Kind = K | V | U

  function KindOf(p: Packet): Kind {
    if !p.keyup then U else if p.payload == [] then K else V
  }

  function Kinds(ps: seq<Packet>): seq<Kind> { seq(|ps|, i requires 0 <= i < |ps| => KindOf(ps[i])) }

  // ----- the reference: whole transmissions laid end to end ----------------------

  function Repeat(k: Kind, n: nat): (r: seq<Kind>)
    ensures |r| == n
  {
    seq(n, _ => k)
  }

  /** Transmissions carrying the given numbers of voice packets. */
  function Transmissions(voices: seq<nat>): seq<Kind> {
    if voices == [] then []
    else Transmissions(voices[..|voices| - 1]) + [K] + Repeat(V, voices[|voices| - 1]) + [U]
  }

  ghost predicate InGrammar(ks: seq<Kind>) {
    exists voices: seq<nat> :: ks <= Transmissions(voices)
  }

  // ----- a recogniser that also knows whether the radio is keyed ------------------

  datatype Radio = Unkeyed | Keyed | Broken

  function Advance(r: Radio, k: Kind): Radio {
    if r.Unkeyed? && k.K? then Keyed
    else if r.Keyed? && k.V? then Keyed
    else if r.Keyed? && k.U? then Unkeyed
    else Broken
  }

  function Recognise(ks: seq<Kind>): Radio {
    if ks == [] then Unkeyed else Advance(Recognise(ks[..|ks| - 1]), ks[|ks| - 1])
  }

  lemma RecogniseAppend(ks: seq<Kind>, k: Kind)
    ensures Recognise(ks + [k]) == Advance(Recognise(ks), k)
  {
    assert (ks + [k])[..|ks|] == ks;
  }

  lemma {:induction false} RecogniseVoice(ks: seq<Kind>, n: nat)
    requires Recognise(ks).Keyed?
    ensures Recognise(ks + Repeat(V, n)).Keyed?
  {
    if n == 0 {
      assert ks + Repeat(V, 0) == ks;
    } else {
      RecogniseVoice(ks, n - 1);
      RecogniseAppend(ks + Repeat(V, n - 1), V);
      assert ks + Repeat(V, n) == ks + Repeat(V, n - 1) + [V];
    }
  }

  lemma {:induction false} RecogniseTransmissions(voices: seq<nat>)
    ensures Recognise(Transmissions(voices)).Unkeyed?
  {
    if voices != [] {
      var before, n := Transmissions(voices[..|voices| - 1]), voices[|voices| - 1];
      RecogniseTransmissions(voices[..|voices| - 1]);
      RecogniseAppend(before, K);
      RecogniseVoice(before + [K], n);
      RecogniseAppend(before + [K] + Repeat(V, n), U);
    }
  }

  lemma {:induction false} RecognisePrefix(ks: seq<Kind>, longer: seq<Kind>)
    requires ks <= longer && !Recognise(longer).Broken?
    ensures !Recognise(ks).Broken?
  {
    if ks != longer {
      RecognisePrefix(ks, longer[..|longer| - 1]);
    } else {
      assert ks == longer;
    }
  }

  /** What has been recognised can be laid out as whole transmissions and, while keyed, an open one. */
  lemma {:induction false} Layout(ks: seq<Kind>) returns (voices: seq<nat>, open: nat)
    requires !Recognise(ks).Broken?
    ensures Recognise(ks).Unkeyed? ==> ks == Transmissions(voices)
    ensures Recognise(ks).Keyed? ==> ks == Transmissions(voices) + [K] + Repeat(V, open)
  {
    voices, open := [], 0;
    if ks != [] {
      var init, last := ks[..|ks| - 1], ks[|ks| - 1];
      assert ks == init + [last];
      voices, open := Layout(init);
      match last
      case K => open := 0;
      case V =>
        open := open + 1;
        assert Repeat(V, open) == Repeat(V, open - 1) + [V];
        assert init + [V] == Transmissions(voices) + [K] + (Repeat(V, open - 1) + [V]);
      case U =>
        assert (voices + [open])[..|voices|] == voices;
        voices := voices + [open];
    }
  }

  /** The recogniser accepts exactly the prefixes of the grammar. */
  lemma {:induction false} RecognisesGrammar(ks: seq<Kind>)
    ensures !Recognise(ks).Broken? <==> InGrammar(ks)
  {
    if !Recognise(ks).Broken? {
      var voices, open := Layout(ks);
      if Recognise(ks).Keyed? {
        assert (voices + [open])[..|voices|] == voices;
        assert ks <= Transmissions(voices + [open]);
      } else {
        assert ks <= Transmissions(voices);
      }
    }
    if InGrammar(ks) {
      var voices :| ks <= Transmissions(voices);
      RecogniseTransmissions(voices);
      RecognisePrefix(ks, Transmissions(voices));
    }
  }

  // ----- the machine --------------------------------------------------------------

  ghost predicate Numbered(sent: seq<Packet>) {
    forall i :: 0 <= i < |sent| ==> sent[i].sequence == (1 + i) % SEQUENCE_MODULUS
  }

  ghost predicate WireOk(sent: seq<Packet>, keyed: bool, nextSequence: nat) {
    && Recognise(Kinds(sent)) == (if keyed then Keyed else Unkeyed)
    && Numbered(sent)
    && nextSequence == (1 + |sent|) % SEQUENCE_MODULUS
  }

  ghost predicate GrammarOk(s: State) {
    && WireOk(s.pacer.sent, s.pacer.keyed, s.pacer.nextSequence)
    && (s.socketOpen && s.pacer.stage.VoiceReady? ==> s.pacer.keyed)
  }

  lemma SendKeepsWire(p: Pacer, open: bool, keyup: bool, payload: seq<Byte>)
    requires WireOk(p.sent, p.keyed, p.nextSequence)
    requires open ==> p.keyed == (!keyup || payload != [])
    ensures var q := Send(p, open, keyup, payload); WireOk(q.sent, q.keyed, q.nextSequence)
  {
    hide Recognise;
    var packet := Packet(p.nextSequence, keyup, payload);
    assert Kinds(p.sent + [packet]) == Kinds(p.sent) + [KindOf(packet)];
    RecogniseAppend(Kinds(p.sent), KindOf(packet));
    assert open ==> Numbered(p.sent + [packet]);
  }

  lemma GrammarHandle(p: Pacer, open: bool, item: Item, after: int)
    requires WireOk(p.sent, p.keyed, p.nextSequence)
    ensures var q := Handle(p, open, item, after);
            WireOk(q.sent, q.keyed, q.nextSequence) && (open && q.stage.VoiceReady? ==> q.keyed)
  {
    hide WireOk;
    if !p.keyed { SendKeepsWire(p, open, true, []); } else { SendKeepsWire(p, open, false, []); }
  }

  lemma GrammarConsumer(s: State, now: int, after: int)
    requires VoiceOk(s) && GrammarOk(s) && !s.pacer.stage.Exited?
    ensures GrammarOk(NextConsumer(s, now, after))
  {
    hide WireOk, Handle, Ordered, Accounted, SentOk;
    var p := s.pacer.(clock := after);
    match p.stage
    case CheckStop =>
    case CheckEmpty =>
    case Getting =>
    case Handling(item) => GrammarHandle(p, s.socketOpen, item, after);
    case VoiceReady(id, frame) =>
      assert InFlight(p.stage)[0].frame == frame;
      SendKeepsWire(p, s.socketOpen, true, frame);
  }

  lemma GrammarStep(s: State, e: Event)
    requires VoiceOk(s) && GrammarOk(s) && Enabled(s, e)
    ensures GrammarOk(Next(s, e))
  {
    hide WireOk, VoiceOk, NextConsumer;
    match e
    case Consume(now, after) => GrammarConsumer(s, now, after);
    case _ =>
      ProducerKeeps(s, e);
      if Next(s, e).socketOpen { OpenFalls(s, e); }
  }
}
