/**
 * StrikeDetector of StrikeDetector.ts: one per target (head or body) in
 * front of a player. It holds the strike currently asked for, and when the
 * player's hand enters one of its four triggers it judges that strike as a
 * hit or a miss and reports to the player controller, telling its peer
 * detector to drop the same strike.
 */
module Detector {
  import opened Wrappers
  import opened Strikes
  import opened Events

  /** The four trigger volumes of a detector; any other entity is unknown. */
  datatype Trigger = CenterTrigger | LeftTrigger | RightTrigger | BottomTrigger | UnknownTrigger

  /** The trigger a strike has to enter. */
  function ExpectedTrigger(strike: StrikeType): (t: Trigger)
    ensures t != UnknownTrigger
  {
    match strike.punch
    case Jab => CenterTrigger
    case Hook => if strike.hand == Left then LeftTrigger else RightTrigger
    case Uppercut => BottomTrigger
  }

  /** The punch a trigger stands for (the ring lit when it is entered). */
  function TriggerPunch(t: Trigger): Option<Punch> {
    match t
    case CenterTrigger => Some(Jab)
    case LeftTrigger => Some(Hook)
    case RightTrigger => Some(Hook)
    case BottomTrigger => Some(Uppercut)
    case UnknownTrigger => None
  }

  /**
   * A strike's expected trigger stands for its punch, and two strikes share an
   * expected trigger exactly when they have the same punch and, for hooks,
   * the same hand.
   */
  lemma ExpectedTriggerOfPunch(a: StrikeType, b: StrikeType)
    ensures TriggerPunch(ExpectedTrigger(a)) == Some(a.punch)
    ensures ExpectedTrigger(a) == ExpectedTrigger(b) <==> a.punch == b.punch && (a.punch == Hook ==> a.hand == b.hand)
  {
  }

  /**
   * The verdict on a strike when `trigger` is entered: a hit exactly when the
   * strike aims at this detector's target, the entered trigger is the
   * expected one and the hand is within reach of it; no verdict for an
   * unknown trigger.
   */
  function Judgement(strike: StrikeType, detectorTarget: string, trigger: Trigger, withinReach: bool): (verdict: Option<bool>)
  {
    if trigger == UnknownTrigger then None
    else if TargetWord(strike.target) == detectorTarget && trigger == ExpectedTrigger(strike) then Some(withinReach)
    else Some(false)
  }

  /** A hit is only ever judged on the expected trigger, and on every known trigger some verdict is given. */
  lemma JudgementHitIff(strike: StrikeType, detectorTarget: string, trigger: Trigger, withinReach: bool)
    ensures Judgement(strike, detectorTarget, trigger, withinReach) == Some(true)
            <==> TargetWord(strike.target) == detectorTarget && trigger == ExpectedTrigger(strike) && withinReach
    ensures Judgement(strike, detectorTarget, trigger, withinReach).None? <==> trigger == UnknownTrigger
  {
  }

  /** What a detector receives. */
  datatype Input =
    | StrikeTypeIn(strike: StrikeType)
    | ClearStrikeIn
    | ClearPeerIn
    | TriggerEnterIn(trigger: Trigger, localIsServer: bool, withinReach: bool)

  /** The pending strike and the outputs after one input. */
  function Step(target: string, pending: Option<StrikeType>, input: Input): (Option<StrikeType>, seq<Output>)
  {
    match input
    case StrikeTypeIn(strike) => (Some(strike), [])
    case ClearStrikeIn => (None, [])
    case ClearPeerIn => (None, [])
    case TriggerEnterIn(trigger, localIsServer, withinReach) =>
      if !localIsServer && pending.Some? then
        var verdict := Judgement(pending.value, target, trigger, withinReach);
        (None, [Send(DetectorPeer, DetectorClearPeer)]
               + if verdict.Some? then [Send(PlayerController, DetectorHit(verdict.value))] else [])
      else
        (pending, [Send(DetectorPeer, DetectorClearPeer)])
  }

  /** The number of verdicts among some outputs. */
  function Verdicts(out: seq<Output>): nat {
    if out == [] then 0
    else (if out[0].Send? && out[0].msg.DetectorHit? then 1 else 0) + Verdicts(out[1..])
  }

  lemma {:induction false} VerdictsAppend(a: seq<Output>, b: seq<Output>)
    ensures Verdicts(a + b) == Verdicts(a) + Verdicts(b)
  {
    if a == [] {
      assert a + b == b;
    } else {
      assert (a + b)[1..] == a[1..] + b;
      VerdictsAppend(a[1..], b);
    }
  }

  function StrikeTypes(inputs: seq<Input>): nat {
    if inputs == [] then 0 else (if inputs[0].StrikeTypeIn? then 1 else 0) + StrikeTypes(inputs[1..])
  }

  /** The pending strike and all outputs after a run of inputs. */
  function Run(target: string, pending: Option<StrikeType>, inputs: seq<Input>): (Option<StrikeType>, seq<Output>)
    decreases inputs
  {
    if inputs == [] then (pending, [])
    else
      var (next, out) := Step(target, pending, inputs[0]);
      var (final, rest) := Run(target, next, inputs[1..]);
      (final, out + rest)
  }

  /**
   * Judging consumes the pending strike, so a detector gives at most one
   * verdict per strike it is sent: in any run the verdicts, together with a
   * strike still pending at the end, number no more than the strikes sent
   * (plus one pending at the start).
   */
  lemma {:induction false} AtMostOneVerdictPerStrike(target: string, pending: Option<StrikeType>, inputs: seq<Input>)
    ensures var (final, out) := Run(target, pending, inputs);
            Verdicts(out) + (if final.Some? then 1 else 0) <= StrikeTypes(inputs) + (if pending.Some? then 1 else 0)
    decreases inputs
  {
    if inputs != [] {
      var (next, out) := Step(target, pending, inputs[0]);
      AtMostOneVerdictPerStrike(target, next, inputs[1..]);
      var (final, rest) := Run(target, next, inputs[1..]);
      VerdictsAppend(out, rest);
      if inputs[0].TriggerEnterIn? {
        var outHead := [Send(DetectorPeer, DetectorClearPeer)];
        assert Verdicts(outHead) == 0;
        if !inputs[0].localIsServer && pending.Some? {
          var verdict := Judgement(pending.value, target, inputs[0].trigger, inputs[0].withinReach);
          var outTail := if verdict.Some? then [Send(PlayerController, DetectorHit(verdict.value))] else [];
          assert Verdicts(outTail) <= 1;
          VerdictsAppend(outHead, outTail);
        }
      } else {
        assert Verdicts(out) == 0;
      }
    }
  }

  /**
   * A trigger-enter with a pending strike and a local player other than the
   * server always clears the strike and the peer and, on a known trigger,
   * reports exactly the judgement.
   */
  lemma TriggerEnterJudges(target: string, strike: StrikeType, trigger: Trigger, withinReach: bool)
    ensures var (next, out) := Step(target, Some(strike), TriggerEnterIn(trigger, false, withinReach));
            && next.None?
            && out[0] == Send(DetectorPeer, DetectorClearPeer)
            && (trigger != UnknownTrigger ==>
                  out == [Send(DetectorPeer, DetectorClearPeer),
                          Send(PlayerController, DetectorHit(TargetWord(strike.target) == target
                                                             && trigger == ExpectedTrigger(strike) && withinReach))])
            && (trigger == UnknownTrigger ==> Verdicts(out) == 0)
  {
    var (next, out) := Step(target, Some(strike), TriggerEnterIn(trigger, false, withinReach));
    if trigger == UnknownTrigger {
      assert out == [Send(DetectorPeer, DetectorClearPeer)];
      assert Verdicts(out[1..]) == 0;
    }
  }

  class StrikeDetector {
    /** The body part this detector stands for ("head" by default). */
    const target: string
    var strikeType: Option<StrikeType>
    var outbox: seq<Output>

    constructor (target: string)
      ensures this.target == target && strikeType.None? && outbox == []
    {
      this.target := target;
      strikeType := None;
      outbox := [];
    }

    /** detectorStrikeType: the strike now asked for replaces any pending one. */
    method DetectorStrikeType(strike: StrikeType)
      modifies this
      ensures (strikeType, outbox) == (Step(target, old(strikeType), StrikeTypeIn(strike)).0, old(outbox))
      ensures strikeType == Some(strike)
    {
      strikeType := Some(strike);
    }

    /** The detectorClearStrike listener. */
    method DetectorClearStrike()
      modifies this
      ensures strikeType == Step(target, old(strikeType), ClearStrikeIn).0 == None
      ensures outbox == old(outbox)
    {
      strikeType := None;
    }

    /** The detectorClearPeer listener. */
    method DetectorClearPeer()
      modifies this
      ensures strikeType == Step(target, old(strikeType), ClearPeerIn).0 == None
      ensures outbox == old(outbox)
    {
      strikeType := None;
    }

    /**
     * onTriggerEnter: tell the peer to drop its strike; then, if a strike is
     * pending and the local player is not the server, consume it and report
     * the judgement (an unknown trigger reports nothing).
     */
    method OnTriggerEnter(trigger: Trigger, localIsServer: bool, withinReach: bool)
      modifies this
      ensures var (next, out) := Step(target, old(strikeType), TriggerEnterIn(trigger, localIsServer, withinReach));
              strikeType == next && outbox == old(outbox) + out
    {
      outbox := outbox + [Send(DetectorPeer, Msg.DetectorClearPeer)];
      if !localIsServer && strikeType.Some? {
        var strike := strikeType.value;
        strikeType := None;
        if trigger == UnknownTrigger {
          return;
        }
        if TargetWord(strike.target) == target {
          var targetTrigger := ExpectedTrigger(strike);
          if trigger == targetTrigger {
            if withinReach {
              outbox := outbox + [Send(PlayerController, DetectorHit(true))];
              return;
            }
          }
        }
        outbox := outbox + [Send(PlayerController, DetectorHit(false))];
      }
    }
  }

  /**
   * The head and body detectors of one player: a trigger-enter on one of them,
   * followed by delivery of its clear-peer message to the other.
   */
  method EnterAndClearPeer(entered: StrikeDetector, peer: StrikeDetector, trigger: Trigger,
                           localIsServer: bool, withinReach: bool)
    requires entered != peer
    modifies entered, peer
    ensures peer.strikeType.None?
    ensures !localIsServer ==> entered.strikeType.None?
    ensures peer.outbox == old(peer.outbox)
    ensures var (next, out) := Step(entered.target, old(entered.strikeType), TriggerEnterIn(trigger, localIsServer, withinReach));
            entered.strikeType == next && entered.outbox == old(entered.outbox) + out
  {
    entered.OnTriggerEnter(trigger, localIsServer, withinReach);
    peer.DetectorClearPeer();
  }
}
