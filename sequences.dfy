/**
 * The strike catalogue and StrikeGenerator of StrikeSequences.ts as heap
 * objects. JavaScript arrays that the game mutates in place (a dealt sequence
 * that `shift()` consumes, a pool that `splice()` shrinks) are objects here,
 * so that the aliasing of the source is explicit: the generator's working
 * pools ARE the catalogue's template pools, and the sequences it deals ARE the
 * catalogue's template sequence objects.
 */
module Sequences {
  import opened Wrappers
  import opened Strikes
  import opened ShuffleBag

  /** A StrikeSequence array: consumed from the front, strike by strike. */
  class StrikeSequence {
    var strikes: seq<StrikeType>

    constructor (strikes: seq<StrikeType>)
      ensures this.strikes == strikes
    {
      this.strikes := strikes;
    }

    /** Array.prototype.shift: remove and return the front strike, undefined when empty. */
    method Shift() returns (front: Option<StrikeType>)
      modifies this
      ensures old(strikes) == [] ==> front == None && strikes == []
      ensures old(strikes) != [] ==> front == Some(old(strikes)[0]) && strikes == old(strikes)[1..]
    {
      if strikes == [] {
        front := None;
      } else {
        front := Some(strikes[0]);
        strikes := strikes[1..];
      }
    }
  }

  /** An array of sequences: one tier of the catalogue. */
  class SequencePool {
    var items: seq<StrikeSequence>

    constructor ()
      ensures items == []
    {
      items := [];
    }

    /** `items.splice(pick, 1)[0]`. */
    method SpliceOne(pick: nat) returns (removed: Option<StrikeSequence>)
      modifies this
      ensures (removed, items) == Splice(old(items), pick)
    {
      if pick < |items| {
        removed := Some(items[pick]);
        items := items[..pick] + items[pick + 1..];
      } else {
        removed := None;
      }
    }
  }

  /** Allocates one fresh sequence object per template, in order. */
  method MakePool(templates: seq<seq<StrikeType>>) returns (pool: SequencePool)
    ensures fresh(pool)
    ensures |pool.items| == |templates|
    ensures forall i | 0 <= i < |templates| :: pool.items[i].strikes == templates[i]
    ensures forall s | s in pool.items :: fresh(s)
    ensures Distinct(pool.items)
  {
    pool := new SequencePool();
    var i := 0;
    while i < |templates|
      invariant 0 <= i <= |templates|
      invariant |pool.items| == i
      invariant forall k | 0 <= k < i :: pool.items[k].strikes == templates[k]
      invariant forall s | s in pool.items :: fresh(s)
      invariant Distinct(pool.items)
    {
      var s := new StrikeSequence(templates[i]);
      pool.items := pool.items + [s];
      i := i + 1;
    }
  }

  /**
   * The module-level `strikeSequences` object: three tier pools holding the
   * template sequences. There is one of it, shared by every generator.
   */
  class Catalogue {
    const easy: SequencePool
    const medium: SequencePool
    const hard: SequencePool
    /** Every template sequence object, whatever pool holds it now. */
    ghost const templates: set<StrikeSequence>

    /** Three distinct pools holding template objects only. */
    ghost predicate Layout()
      reads this, easy, medium, hard
    {
      && easy != medium && easy != hard && medium != hard
      && (forall s | s in easy.items :: s in templates)
      && (forall s | s in medium.items :: s in templates)
      && (forall s | s in hard.items :: s in templates)
    }

    /** ... and no template object sits twice in the pools. */
    ghost predicate Valid()
      reads this, easy, medium, hard
    {
      Layout() && Distinct(easy.items + medium.items + hard.items)
    }

    constructor ()
      ensures Valid()
      ensures fresh(easy) && fresh(medium) && fresh(hard)
      ensures forall s | s in templates :: fresh(s)
      ensures |easy.items| == |EasyTemplates()| && |medium.items| == |MediumTemplates()| && |hard.items| == |HardTemplates()|
      ensures forall i | 0 <= i < |easy.items| :: easy.items[i].strikes == EasyTemplates()[i]
      ensures forall i | 0 <= i < |medium.items| :: medium.items[i].strikes == MediumTemplates()[i]
      ensures forall i | 0 <= i < |hard.items| :: hard.items[i].strikes == HardTemplates()[i]
      ensures Distinct(easy.items + medium.items + hard.items)
    {
      var e := MakePool(EasyTemplates());
      var m := MakePool(MediumTemplates());
      var h := MakePool(HardTemplates());
      easy, medium, hard := e, m, h;
      templates := (set s | s in e.items) + (set s | s in m.items) + (set s | s in h.items);
      new;
      assert forall i, j | 0 <= i < |e.items| && 0 <= j < |m.items| :: e.items[i] != m.items[j];
      assert forall i, j | 0 <= i < |e.items| + |m.items| && 0 <= j < |h.items| :: (e.items + m.items)[i] != h.items[j];
    }
  }

  /**
   * A StrikeGenerator: the memoised list of dealt sequences (an entry is None
   * where the source pushed `undefined`) and the three remaining pools.
   */
  class StrikeGenerator {
    const numEasy: int
    const numMedium: int
    const catalogue: Catalogue
    var sequences: seq<Option<StrikeSequence>>
    var remainingEasy: SequencePool
    var remainingMedium: SequencePool
    var remainingHard: SequencePool

    /** The remaining pools are the catalogue's own template pools, not copies. */
    ghost predicate Linked()
      reads this, catalogue, catalogue.easy, catalogue.medium, catalogue.hard
    {
      && catalogue.Layout()
      && remainingEasy == catalogue.easy
      && remainingMedium == catalogue.medium
      && remainingHard == catalogue.hard
      && forall k | 0 <= k < |sequences| && sequences[k].Some? :: sequences[k].value in catalogue.templates
    }

    /** ... and no sequence object is held twice, dealt or still in a pool. */
    ghost predicate Valid()
      reads this, catalogue, catalogue.easy, catalogue.medium, catalogue.hard
    {
      && Linked()
      && catalogue.Valid()
      && Distinct(Contents(State()))
    }

    /** The generator's state as a value. */
    ghost function State(): Bag<StrikeSequence>
      reads this, remainingEasy, remainingMedium, remainingHard
    {
      Bag(sequences, remainingEasy.items, remainingMedium.items, remainingHard.items)
    }

    constructor (catalogue: Catalogue, numEasy: int, numMedium: int)
      requires catalogue.Valid()
      ensures Valid()
      ensures this.catalogue == catalogue && this.numEasy == numEasy && this.numMedium == numMedium
      ensures sequences == []
    {
      this.numEasy, this.numMedium, this.catalogue := numEasy, numMedium, catalogue;
      sequences := [];
      remainingEasy := catalogue.easy;
      remainingMedium := catalogue.medium;
      remainingHard := catalogue.hard;
      new;
      assert Contents(State()) == catalogue.easy.items + catalogue.medium.items + catalogue.hard.items;
    }

    /**
     * No template is ever dealt twice by one generator: whatever it has dealt so
     * far holds each sequence object at most once.
     */
    lemma NeverDealsTwice()
      requires Valid()
      ensures Distinct(Dealt(sequences))
    {
      var pools := remainingEasy.items + remainingMedium.items + remainingHard.items;
      assert Contents(State()) == Dealt(sequences) + pools;
      DistinctPrefix(Dealt(sequences), pools);
    }

    /** The number of draws getNextSequence(index) makes: one per missing position. */
    function DrawsNeeded(index: nat): nat
      reads this
    {
      if index < |sequences| then 0 else index + 1 - |sequences|
    }

    /** One iteration of the draw loop of getNextSequence. */
    method DrawOne(roll: real)
      requires Valid() && ValidRoll(roll)
      modifies this, catalogue.easy, catalogue.medium, catalogue.hard
      ensures Valid()
      ensures State() == Draw(old(State()), roll, numEasy, numMedium)
      ensures |sequences| == old(|sequences|) + 1
    {
      ghost var start := State();
      Take(roll);
      DrawKeepsDistinct(start, roll, numEasy, numMedium);
    }

    /** The statements of one loop iteration: splice from the tier's pool, push, "refill". */
    method Take(roll: real)
      requires Linked() && ValidRoll(roll)
      modifies this, catalogue.easy, catalogue.medium, catalogue.hard
      ensures Linked()
      ensures State() == Draw(old(State()), roll, numEasy, numMedium)
      ensures |sequences| == old(|sequences|) + 1
    {
      if |sequences| < numEasy {
        var pick := PickIndex(roll, |remainingEasy.items|);
        var x := remainingEasy.SpliceOne(pick);
        sequences := sequences + [x];
        if |remainingEasy.items| == 0 {
          // the "refill": re-pointed at the template pool, which is this same emptied pool
          remainingEasy := catalogue.easy;
        }
      } else if |sequences| < numEasy + numMedium {
        var pick := PickIndex(roll, |remainingMedium.items|);
        var x := remainingMedium.SpliceOne(pick);
        sequences := sequences + [x];
        if |remainingMedium.items| == 0 {
          remainingMedium := catalogue.medium;
        }
      } else {
        var pick := PickIndex(roll, |remainingHard.items|);
        var x := remainingHard.SpliceOne(pick);
        sequences := sequences + [x];
        if |remainingHard.items| == 0 {
          remainingHard := catalogue.hard;
        }
      }
    }

    /** One iteration of the draw loop, as the next draw of a run of draws from `start`. */
    method DrawNext(ghost start: Bag<StrikeSequence>, rolls: seq<real>, drawn: nat)
      requires Valid() && ValidRolls(rolls) && drawn < |rolls|
      requires State() == Draws(start, rolls[..drawn], numEasy, numMedium)
      modifies this, catalogue.easy, catalogue.medium, catalogue.hard
      ensures Valid()
      ensures State() == Draws(start, rolls[..drawn + 1], numEasy, numMedium)
      ensures |sequences| == old(|sequences|) + 1
    {
      DrawOne(rolls[drawn]);
      DrawsSnoc(start, rolls, drawn, numEasy, numMedium);
    }

    /**
     * getNextSequence(index): draw until position `index` exists, then return
     * the entry there. `rolls` supplies the Math.random() value of each draw.
     */
    method GetNextSequence(index: nat, rolls: seq<real>) returns (s: Option<StrikeSequence>)
      requires Valid()
      requires ValidRolls(rolls) && DrawsNeeded(index) <= |rolls|
      modifies this, catalogue.easy, catalogue.medium, catalogue.hard
      ensures Valid()
      ensures State() == Draws(old(State()), rolls[..old(DrawsNeeded(index))], numEasy, numMedium)
      ensures |sequences| == if index < old(|sequences|) then old(|sequences|) else index + 1
      ensures sequences[..old(|sequences|)] == old(sequences)
      ensures s == sequences[index]
    {
      ghost var used := DrawsNeeded(index);
      ghost var start := State();
      assert used == 0 || |start.dealt| + used == index + 1;
      var drawn := 0;
      while index >= |sequences|
        invariant Valid()
        invariant |sequences| == |start.dealt| + drawn
        invariant drawn <= used
        invariant State() == Draws(start, rolls[..drawn], numEasy, numMedium)
        decreases index + 1 - |sequences|
      {
        DrawNext(start, rolls, drawn);
        drawn := drawn + 1;
      }
      assert drawn == used;
      DrawsAppend(start, rolls[..used], numEasy, numMedium);
      s := sequences[index];
    }
  }
}
