/** The frame-driven audio sequencer: a 64-second song of four 16-second acts
    over a fixed chord progression. Each frame it may emit a bass tone (once
    per act, when the act differs from the last one that played a bass) and
    an arpeggio tone (every eighth frame). Host `tone` calls are modelled as
    emitted events. */
module Sequencer {
  import opened MachineInts

  /** Frames per act: 16 seconds at 60 frames per second. Where a function
      below divides by the act length or the arpeggio period, or takes a
      remainder by them or by the number of acts, it writes the number itself
      (960, 8, 4). The verifier's integer arithmetic handles division by a
      numeral, but treats division by a named constant as nonlinear. The
      names are used everywhere else. */
  const ACT_FRAMES: nat := 960
  const ACT_COUNT: nat := 4
  const ARP_PERIOD: nat := 8

  /** The "no act played yet" value of `lastBassAct`. */
  const NO_ACT: u32 := U32_MAX

  /** Tone channels, as the WASM-4 `tone` flags name them. */
  const TONE_PULSE1: nat := 0
  const TONE_PULSE2: nat := 1

  const BASS_VOLUME: nat := 40
  const ARP_VOLUME: nat := 60

  /** One host `tone(frequency, duration, volume, flags)` call. */
  datatype Tone = Tone(frequency: nat, duration: nat, volume: nat, channel: nat)

  datatype Chord = Chord(bass: nat, arp: nat)

  /** Am, G, F, E: bass notes C2, G1, F2, E2 under arpeggio notes C4, G3, F4, E4. */
  const PROGRESSION: seq<Chord> :=
    [Chord(65, 262), Chord(49, 196), Chord(87, 349), Chord(82, 330)]

  /** `frameCounter` and `lastBassAct`, both `u32`. */
  datatype State = State(frameCounter: u32, lastBassAct: u32)

  const INITIAL: State := State(0, NO_ACT)

  /** `(frameCounter / (60 * 16)) % 4`: the act a frame belongs to. */
  function ActIndex(frameCounter: u32): (a: u32)
    ensures a as int < ACT_COUNT
    ensures a != NO_ACT
  {
    (frameCounter as int / 960 % 4) as u32
  }

  function BassTone(act: u32): Tone
    requires act as int < ACT_COUNT
  {
    Tone(PROGRESSION[act].bass, ACT_FRAMES, BASS_VOLUME, TONE_PULSE2)
  }

  function ArpTone(act: u32): Tone
    requires act as int < ACT_COUNT
  {
    Tone(PROGRESSION[act].arp, ARP_PERIOD, ARP_VOLUME, TONE_PULSE1)
  }

  predicate IsBass(t: Tone) {
    t.channel == TONE_PULSE2
  }

  /** The number of bass tones in an event list. */
  function BassCount(events: seq<Tone>): (n: nat)
    ensures n <= |events|
  {
    if |events| == 0 then 0
    else BassCount(events[..|events| - 1]) + (if IsBass(events[|events| - 1]) then 1 else 0)
  }

  /** The number of arpeggio tones in an event list. */
  function ArpCount(events: seq<Tone>): (n: nat)
    ensures n <= |events|
  {
    if |events| == 0 then 0
    else ArpCount(events[..|events| - 1]) + (if IsBass(events[|events| - 1]) then 0 else 1)
  }

  lemma CountsAppend(a: seq<Tone>, b: seq<Tone>)
    ensures BassCount(a + b) == BassCount(a) + BassCount(b)
    ensures ArpCount(a + b) == ArpCount(a) + ArpCount(b)
    decreases |b|
  {
    if |b| > 0 {
      assert (a + b)[..|a + b| - 1] == a + b[..|b| - 1];
      CountsAppend(a, b[..|b| - 1]);
    } else {
      assert a + b == a;
    }
  }

  /** The number of frames f < n with f % k == 0, counted one frame at a
      time. */
  function Multiples(n: nat, k: nat): nat
    requires k > 0
  {
    if n == 0 then 0 else Multiples(n - 1, k) + (if (n - 1) % k == 0 then 1 else 0)
  }

  /** Of the frames below n, (n + 959) / 960 start an act. */
  lemma {:induction false} ActStarts(n: nat)
    ensures Multiples(n, 960) == (n + 959) / 960
  {
    if n > 0 {
      ActStarts(n - 1);
      assert (n + 959) / 960 == (n + 958) / 960 + (if (n - 1) % 960 == 0 then 1 else 0);
    }
  }

  /** Of the frames below n, (n + 7) / 8 are multiples of 8. */
  lemma {:induction false} ArpFrames(n: nat)
    ensures Multiples(n, 8) == (n + 7) / 8
  {
    if n > 0 {
      ArpFrames(n - 1);
      assert (n + 7) / 8 == (n + 6) / 8 + (if (n - 1) % 8 == 0 then 1 else 0);
    }
  }

  /** What one frame of the sequencer emits and the state it leaves. */
  datatype Tick = Tick(events: seq<Tone>, state: State)

  /** The audio block of `update` followed by `frameCounter++` (which wraps
      at 2^32). */
  function Step(s: State): (t: Tick)
    ensures t.state.frameCounter == WrapU32(s.frameCounter as int + 1)
    ensures t.state.lastBassAct == ActIndex(s.frameCounter)
  {
    var act := ActIndex(s.frameCounter);
    var bass := if act != s.lastBassAct then [BassTone(act)] else [];
    var arp := if s.frameCounter as int % 8 == 0 then [ArpTone(act)] else [];
    Tick(bass + arp, State(WrapU32(s.frameCounter as int + 1), act))
  }

  /** One frame emits a bass tone exactly when its act differs from
      `lastBassAct`, an arpeggio tone exactly when the counter is a multiple
      of 8, and both carry the chord of the current act. */
  lemma StepEvents(s: State)
    ensures BassCount(Step(s).events) == (if ActIndex(s.frameCounter) != s.lastBassAct then 1 else 0)
    ensures ArpCount(Step(s).events) == (if s.frameCounter as int % 8 == 0 then 1 else 0)
    ensures forall i :: 0 <= i < |Step(s).events| ==>
      Step(s).events[i] == (if IsBass(Step(s).events[i]) then BassTone(ActIndex(s.frameCounter))
                            else ArpTone(ActIndex(s.frameCounter)))
  {
    var act := ActIndex(s.frameCounter);
    var bass := if act != s.lastBassAct then [BassTone(act)] else [];
    var arp := if s.frameCounter as int % 8 == 0 then [ArpTone(act)] else [];
    var events := Step(s).events;
    assert events == bass + arp;
    assert BassCount(events) == BassCount(bass) + BassCount(arp)
      && ArpCount(events) == ArpCount(bass) + ArpCount(arp) by {
      CountsAppend(bass, arp);
    }
    assert BassCount(bass) == |bass| && ArpCount(bass) == 0 by {
      if |bass| == 1 {
        OneToneCounts(BassTone(act));
      }
    }
    assert BassCount(arp) == 0 && ArpCount(arp) == |arp| by {
      if |arp| == 1 {
        OneToneCounts(ArpTone(act));
      }
    }
    forall i | 0 <= i < |events|
      ensures events[i] == if IsBass(events[i]) then BassTone(act) else ArpTone(act)
    {
      if i < |bass| {
        assert events[i] == BassTone(act);
      } else {
        assert events[i] == ArpTone(act);
      }
    }
  }

  /** The counts of a one-tone list. */
  lemma OneToneCounts(t: Tone)
    ensures BassCount([t]) == if IsBass(t) then 1 else 0
    ensures ArpCount([t]) == if IsBass(t) then 0 else 1
  {
    assert [t][..0] == [];
  }

  /** The acts follow each other 0, 1, 2, 3, 0, ...: a frame is in the act
      after its predecessor's exactly when it starts a 960-frame block. */
  lemma {:induction false} ActIndexNext(f: u32)
    requires f as int + 1 < U32_MODULUS
    ensures ActIndex((f as int + 1) as u32) ==
      if (f as int + 1) % 960 == 0 then ((ActIndex(f) as int + 1) % 4) as u32
      else ActIndex(f)
  {
    var g := f as int + 1;
    if g % 960 == 0 {
      assert g / 960 == f as int / 960 + 1;
    } else {
      assert g / 960 == f as int / 960;
    }
  }

  /** The states reachable from the initial one without the counter wrapping:
      before the first frame the sentinel, afterwards the act of the
      previous frame. */
  predicate Reachable(s: State) {
    if s.frameCounter == 0 then s.lastBassAct == NO_ACT
    else s.lastBassAct == ActIndex((s.frameCounter as int - 1) as u32)
  }

  /** Over reachable states the bass fires exactly on the first frame of each
      960-frame act, frame 0 included. */
  lemma BassFiresAtActStart(s: State)
    requires Reachable(s)
    ensures ActIndex(s.frameCounter) != s.lastBassAct <==> s.frameCounter as int % 960 == 0
  {
    if s.frameCounter != 0 {
      var p := (s.frameCounter as int - 1) as u32;
      ActIndexNext(p);
      assert ((ActIndex(p) as int + 1) % 4) as u32 != ActIndex(p);
    }
  }

  /** A step keeps the state reachable while the counter does not wrap. */
  lemma StepKeepsReachable(s: State)
    requires Reachable(s) && s.frameCounter < U32_MAX
    ensures Reachable(Step(s).state)
    ensures Step(s).state.frameCounter as int == s.frameCounter as int + 1
  {
  }

  /** n frames of the sequencer from state s: the concatenated events and
      the final state. */
  function Run(s: State, n: nat): Tick {
    if n == 0 then Tick([], s)
    else
      var before := Run(s, n - 1);
      var t := Step(before.state);
      Tick(before.events + t.events, t.state)
  }

  /** After n frames from the start the counter is n and the sentinel has been
      replaced by the act of frame n - 1. */
  lemma {:induction false} RunState(n: nat)
    requires n < U32_MODULUS
    ensures Run(INITIAL, n).state.frameCounter as int == n
    ensures Reachable(Run(INITIAL, n).state)
  {
    if n > 0 {
      RunState(n - 1);
      StepKeepsReachable(Run(INITIAL, n - 1).state);
    }
  }

  /** From a reachable state one frame emits a bass tone exactly at the start
      of an act and an arpeggio tone exactly on every eighth frame. */
  lemma StepCounts(s: State)
    requires Reachable(s)
    ensures BassCount(Step(s).events) == if s.frameCounter as int % 960 == 0 then 1 else 0
    ensures ArpCount(Step(s).events) == if s.frameCounter as int % 8 == 0 then 1 else 0
  {
    BassFiresAtActStart(s);
    StepEvents(s);
  }

  /** Over the first n frames the bass fires once per act begun (frame 0,
      960, 1920, ...) and the arpeggio once per eighth frame. */
  lemma RunCounts(n: nat)
    requires n < U32_MODULUS
    ensures BassCount(Run(INITIAL, n).events) == (n + 959) / 960
    ensures ArpCount(Run(INITIAL, n).events) == (n + 7) / 8
  {
    RunBassMultiples(n);
    RunArpMultiples(n);
    ActStarts(n);
    ArpFrames(n);
  }

  /** The bass tones of the first n frames, one per act start. */
  lemma {:induction false} RunBassMultiples(n: nat)
    requires n < U32_MODULUS
    ensures BassCount(Run(INITIAL, n).events) == Multiples(n, 960)
  {
    if n == 0 {
      assert Run(INITIAL, n).events == [];
    } else {
      var m := n - 1;
      var before, after := BassCount(Run(INITIAL, m).events), BassCount(Run(INITIAL, n).events);
      assert before == Multiples(m, 960) by {
        RunBassMultiples(m);
      }
      assert after == before + (if m % 960 == 0 then 1 else 0) by {
        RunBassStep(m);
      }
    }
  }

  /** The arpeggio tones of the first n frames, one per multiple of 8. */
  lemma {:induction false} RunArpMultiples(n: nat)
    requires n < U32_MODULUS
    ensures ArpCount(Run(INITIAL, n).events) == Multiples(n, 8)
  {
    if n == 0 {
      assert Run(INITIAL, n).events == [];
    } else {
      var m := n - 1;
      var before, after := ArpCount(Run(INITIAL, m).events), ArpCount(Run(INITIAL, n).events);
      assert before == Multiples(m, 8) by {
        RunArpMultiples(m);
      }
      assert after == before + (if m % 8 == 0 then 1 else 0) by {
        RunArpStep(m);
      }
    }
  }

  /** Frame m of a run from the start adds one bass tone exactly if it
      begins an act. */
  lemma RunBassStep(m: nat)
    requires m + 1 < U32_MODULUS
    ensures BassCount(Run(INITIAL, m + 1).events) ==
      BassCount(Run(INITIAL, m).events) + if m % 960 == 0 then 1 else 0
  {
    var before := Run(INITIAL, m);
    var t := Step(before.state);
    RunState(m);
    StepCounts(before.state);
    CountsAppend(before.events, t.events);
  }

  /** Frame m of a run from the start adds one arpeggio tone exactly if it is
      a multiple of eight. */
  lemma RunArpStep(m: nat)
    requires m + 1 < U32_MODULUS
    ensures ArpCount(Run(INITIAL, m + 1).events) ==
      ArpCount(Run(INITIAL, m).events) + if m % 8 == 0 then 1 else 0
  {
    var before := Run(INITIAL, m);
    var t := Step(before.state);
    RunState(m);
    StepCounts(before.state);
    CountsAppend(before.events, t.events);
  }

  /** The bass never fires twice within one act: two firing frames of a run
      from the start lie in different 960-frame blocks. */
  lemma BassOncePerAct(f1: nat, f2: nat)
    requires f1 < f2 < U32_MODULUS
    requires ActIndex(Run(INITIAL, f1).state.frameCounter) != Run(INITIAL, f1).state.lastBassAct
    requires ActIndex(Run(INITIAL, f2).state.frameCounter) != Run(INITIAL, f2).state.lastBassAct
    ensures f1 / 960 < f2 / 960
  {
    RunState(f1);
    RunState(f2);
    BassFiresAtActStart(Run(INITIAL, f1).state);
    BassFiresAtActStart(Run(INITIAL, f2).state);
  }
}
