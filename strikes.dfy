/**
 * The strike vocabulary of the punch game: hands, punches, targets, the
 * strike catalogue of StrikeSequences.ts as values, and the on-screen name
 * of a strike.
 */
module Strikes {

  datatype Hand = Left | Right
  datatype Punch = Jab | Hook | Uppercut
  datatype Target = Head | Body

  /** One required gesture. */
  datatype StrikeType = StrikeType(hand: Hand, punch: Punch, target: Target)

  const LEFT_JAB_HEAD := StrikeType(Left, Jab, Head)
  const LEFT_JAB_BODY := StrikeType(Left, Jab, Body)
  const LEFT_HOOK_HEAD := StrikeType(Left, Hook, Head)
  const LEFT_HOOK_BODY := StrikeType(Left, Hook, Body)
  const LEFT_UPPERCUT_HEAD := StrikeType(Left, Uppercut, Head)
  const LEFT_UPPERCUT_BODY := StrikeType(Left, Uppercut, Body)
  const RIGHT_JAB_HEAD := StrikeType(Right, Jab, Head)
  const RIGHT_JAB_BODY := StrikeType(Right, Jab, Body)
  const RIGHT_HOOK_HEAD := StrikeType(Right, Hook, Head)
  const RIGHT_HOOK_BODY := StrikeType(Right, Hook, Body)
  const RIGHT_UPPERCUT_HEAD := StrikeType(Right, Uppercut, Head)
  const RIGHT_UPPERCUT_BODY := StrikeType(Right, Uppercut, Body)

  /** The easy tier of the catalogue: single strikes. */
  function EasyTemplates(): seq<seq<StrikeType>> {
    [ [LEFT_JAB_HEAD],
      [LEFT_HOOK_BODY],
      [LEFT_UPPERCUT_BODY],
      [RIGHT_HOOK_HEAD],
      [RIGHT_UPPERCUT_HEAD],
      [RIGHT_JAB_BODY] ]
  }

  /** The medium tier of the catalogue: pairs of strikes. */
  function MediumTemplates(): seq<seq<StrikeType>> {
    [ [RIGHT_HOOK_BODY, LEFT_JAB_HEAD],
      [LEFT_UPPERCUT_BODY, RIGHT_JAB_HEAD],
      [LEFT_HOOK_HEAD, RIGHT_HOOK_HEAD],
      [LEFT_JAB_BODY, RIGHT_UPPERCUT_HEAD],
      [LEFT_JAB_BODY, RIGHT_JAB_BODY],
      [LEFT_HOOK_BODY, RIGHT_UPPERCUT_HEAD] ]
  }

  /** The hard tier of the catalogue: triples of strikes. */
  function HardTemplates(): seq<seq<StrikeType>> {
    [ [RIGHT_UPPERCUT_BODY, LEFT_JAB_HEAD, RIGHT_HOOK_BODY],
      [LEFT_UPPERCUT_BODY, RIGHT_JAB_HEAD, LEFT_HOOK_BODY],
      [RIGHT_JAB_HEAD, LEFT_JAB_HEAD, RIGHT_HOOK_BODY],
      [LEFT_UPPERCUT_HEAD, RIGHT_JAB_BODY, LEFT_HOOK_HEAD],
      [RIGHT_UPPERCUT_HEAD, LEFT_JAB_BODY, RIGHT_HOOK_HEAD] ]
  }

  /** The catalogue holds 6 easy sequences of one strike, 6 medium of two and 5 hard of three. */
  lemma CatalogueShape()
    ensures |EasyTemplates()| == 6 && forall s | s in EasyTemplates() :: |s| == 1
    ensures |MediumTemplates()| == 6 && forall s | s in MediumTemplates() :: |s| == 2
    ensures |HardTemplates()| == 5 && forall s | s in HardTemplates() :: |s| == 3
  {
    var easy, medium, hard := EasyTemplates(), MediumTemplates(), HardTemplates();
    assert forall i | 0 <= i < |easy| :: |easy[i]| == 1;
    assert forall i | 0 <= i < |medium| :: |medium[i]| == 2;
    assert forall i | 0 <= i < |hard| :: |hard[i]| == 3;
  }

  function HandWord(hand: Hand): string {
    match hand
    case Left => "left"
    case Right => "right"
  }

  function PunchWord(punch: Punch): string {
    match punch
    case Jab => "jab"
    case Hook => "hook"
    case Uppercut => "uppercut"
  }

  function TargetWord(target: Target): string {
    match target
    case Head => "head"
    case Body => "body"
  }

  /** The hand is the player's dominant (rear, "cross") hand. */
  predicate IsDominant(hand: Hand, isRightHanded: bool) {
    (hand == Right && isRightHanded) || (hand == Left && !isRightHanded)
  }

  /**
   * The text shown to the player for a strike. A jab drops the hand word and is
   * called a "cross" when thrown with the dominant hand; any other punch is
   * "<hand> <punch>"; the target always comes last.
   */
  function StrikeName(strike: StrikeType, isRightHanded: bool): (name: string)
    ensures strike.punch != Jab ==>
              name == HandWord(strike.hand) + " " + PunchWord(strike.punch) + " " + TargetWord(strike.target)
    ensures |name| > |TargetWord(strike.target)| + 1
    ensures name[|name| - |TargetWord(strike.target)| - 1..] == " " + TargetWord(strike.target)
  {
    var handPunch :=
      if strike.punch == Jab then
        (if IsDominant(strike.hand, isRightHanded) then "cross" else "jab")
      else
        HandWord(strike.hand) + " " + PunchWord(strike.punch);
    handPunch + " " + TargetWord(strike.target)
  }

  /** A jab is named "cross <target>" with the dominant hand and "jab <target>" with the other one. */
  lemma JabName(strike: StrikeType, isRightHanded: bool)
    requires strike.punch == Jab
    ensures IsDominant(strike.hand, isRightHanded) ==> StrikeName(strike, isRightHanded) == "cross " + TargetWord(strike.target)
    ensures !IsDominant(strike.hand, isRightHanded) ==> StrikeName(strike, isRightHanded) == "jab " + TargetWord(strike.target)
  {
  }

  /** Only a dominant-hand jab is announced as a cross. */
  lemma CrossExactlyForDominantJab(strike: StrikeType, isRightHanded: bool)
    ensures StrikeName(strike, isRightHanded)[..5] == "cross"
            <==> strike.punch == Jab && IsDominant(strike.hand, isRightHanded)
  {
    var name := StrikeName(strike, isRightHanded);
    if strike.punch != Jab {
      assert name[0] == HandWord(strike.hand)[0];
    } else if !IsDominant(strike.hand, isRightHanded) {
      assert name[0] == 'j';
    }
  }

  /**
   * For a fixed handedness, the name determines the strike: although a jab
   * drops the hand word, "cross" and "jab" tell the two hands apart.
   */
  lemma StrikeNameInjective(a: StrikeType, b: StrikeType, isRightHanded: bool)
    ensures StrikeName(a, isRightHanded) == StrikeName(b, isRightHanded) ==> a == b
  {
    if a != b {
      var na, nb := StrikeName(a, isRightHanded), StrikeName(b, isRightHanded);
      if a.target != b.target {
        // the target word is the tail of the name
        assert na[|na| - 1] != nb[|nb| - 1];
      } else if a.punch == Jab && b.punch == Jab {
        assert na[0] != nb[0];
      } else if a.punch == Jab || b.punch == Jab {
        assert |na| != |nb|;
      } else if a.hand != b.hand {
        assert na[0] != nb[0];
      } else {
        var h := |HandWord(a.hand)| + 1;
        assert na[h] != nb[h];
      }
    }
  }
}
