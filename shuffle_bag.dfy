/**
 * The draw loop of StrikeGenerator.getNextSequence on values: which tier a
 * position draws from, how one draw takes the picked sequence out of that
 * tier's remaining pool, and what a run of draws does. The heap classes in
 * module Sequences are proved to follow these functions.
 */
module ShuffleBag {
  import opened Wrappers

  datatype Tier = Easy | Medium | Hard

  /**
   * The tier that fills dealt position `position`: easy below numEasy, medium
   * below numEasy + numMedium, hard from there on.
   */
  function TierOf(position: int, numEasy: int, numMedium: int): (tier: Tier)
    ensures tier == Easy <==> position < numEasy
    ensures tier == Medium <==> numEasy <= position < numEasy + numMedium
    ensures tier == Hard <==> numEasy <= position && numEasy + numMedium <= position
  {
    if position < numEasy then Easy
    else if position < numEasy + numMedium then Medium
    else Hard
  }

  /** A value of Math.random(). */
  predicate ValidRoll(roll: real) {
    0.0 <= roll < 1.0
  }

  predicate ValidRolls(rolls: seq<real>) {
    forall i | 0 <= i < |rolls| :: ValidRoll(rolls[i])
  }

  lemma ScaledRollInRange(roll: real, size: nat)
    requires ValidRoll(roll)
    ensures 0.0 <= roll * size as real
    ensures size > 0 ==> roll * size as real < size as real
  {
    if size > 0 {
      assert (1.0 - roll) * size as real > 0.0;
    }
  }

  /** Math.floor(roll * size): a valid index into a non-empty pool, 0 for an empty one. */
  function PickIndex(roll: real, size: nat): (pick: nat)
    requires ValidRoll(roll)
    ensures size > 0 ==> pick < size
    ensures size == 0 ==> pick == 0
  {
    ScaledRollInRange(roll, size);
    (roll * size as real).Floor
  }

  /**
   * `pool.splice(pick, 1)[0]`: the element at `pick` (None, JavaScript's
   * undefined, when there is none) and the pool without it.
   */
  function Splice<T>(pool: seq<T>, pick: nat): (r: (Option<T>, seq<T>))
    ensures pick >= |pool| ==> r == (None, pool)
    ensures pick < |pool| ==> r.0 == Some(pool[pick]) && |r.1| == |pool| - 1
    ensures pick < |pool| ==> forall i | 0 <= i < |r.1| :: r.1[i] == if i < pick then pool[i] else pool[i + 1]
  {
    if pick < |pool| then (Some(pool[pick]), pool[..pick] + pool[pick + 1..]) else (None, pool)
  }

  /** The generator's state: the dealt list and the three remaining pools. */
  datatype Bag<T> = Bag(dealt: seq<Option<T>>, easy: seq<T>, medium: seq<T>, hard: seq<T>)
  {
    function Pool(tier: Tier): seq<T> {
      match tier
      case Easy => easy
      case Medium => medium
      case Hard => hard
    }

    function WithPool(tier: Tier, pool: seq<T>): (b: Bag<T>)
      ensures b.dealt == dealt && b.Pool(tier) == pool
      ensures forall t | t != tier :: b.Pool(t) == Pool(t)
    {
      match tier
      case Easy => this.(easy := pool)
      case Medium => this.(medium := pool)
      case Hard => this.(hard := pool)
    }
  }

  /**
   * One iteration of the draw loop: pick from the pool of the tier of the next
   * position, remove the pick from that pool and append it to the dealt list.
   * The source then "refills" an emptied pool by pointing it at the tier's
   * template, but the template is that very pool object, so the contents are
   * left exactly as the splice left them.
   */
  function Draw<T>(b: Bag<T>, roll: real, numEasy: int, numMedium: int): Bag<T>
    requires ValidRoll(roll)
  {
    var tier := TierOf(|b.dealt|, numEasy, numMedium);
    var pool := b.Pool(tier);
    var (drawn, rest) := Splice(pool, PickIndex(roll, |pool|));
    b.WithPool(tier, rest).(dealt := b.dealt + [drawn])
  }

  /** The draws of one getNextSequence call, one roll per draw, in order. */
  function Draws<T>(b: Bag<T>, rolls: seq<real>, numEasy: int, numMedium: int): Bag<T>
    requires ValidRolls(rolls)
    decreases |rolls|
  {
    if rolls == [] then b
    else
      var last := |rolls| - 1;
      assert ValidRoll(rolls[last]);
      Draw(Draws(b, rolls[..last], numEasy, numMedium), rolls[last], numEasy, numMedium)
  }

  /** The sequences actually dealt, undefined draws dropped. */
  function Dealt<T>(dealt: seq<Option<T>>): (s: seq<T>)
    ensures |s| <= |dealt|
  {
    if dealt == [] then []
    else
      var last := |dealt| - 1;
      Dealt(dealt[..last]) + (if dealt[last].Some? then [dealt[last].value] else [])
  }

  /** Everything the generator holds: what it dealt and what its pools still hold. */
  function Contents<T>(b: Bag<T>): seq<T> {
    Dealt(b.dealt) + b.easy + b.medium + b.hard
  }

  /** No element occurs twice. */
  ghost predicate AtMostOnce<T>(s: seq<T>) {
    forall x | x in multiset(s) :: multiset(s)[x] == 1
  }

  /**
   * One draw appends exactly one entry to the dealt list, leaves the other
   * tiers alone, and from a non-empty pool removes exactly the picked element,
   * the others keeping their order; from an empty pool it deals nothing.
   */
  lemma DrawDeals<T>(b: Bag<T>, roll: real, numEasy: int, numMedium: int)
    requires ValidRoll(roll)
    ensures var b' := Draw(b, roll, numEasy, numMedium);
            var tier := TierOf(|b.dealt|, numEasy, numMedium);
            var pool := b.Pool(tier);
            var pick := PickIndex(roll, |pool|);
            && b'.dealt[..|b.dealt|] == b.dealt
            && |b'.dealt| == |b.dealt| + 1
            && (forall t | t != tier :: b'.Pool(t) == b.Pool(t))
            && (pool == [] ==> b'.dealt[|b.dealt|] == None && b'.Pool(tier) == [])
            && (pool != [] ==>
                  && b'.dealt[|b.dealt|] == Some(pool[pick])
                  && b'.Pool(tier) == pool[..pick] + pool[pick + 1..]
                  && multiset(b'.Pool(tier)) + multiset{pool[pick]} == multiset(pool))
  {
    var tier := TierOf(|b.dealt|, numEasy, numMedium);
    var pool := b.Pool(tier);
    var pick := PickIndex(roll, |pool|);
    if pool != [] {
      assert pool == pool[..pick] + [pool[pick]] + pool[pick + 1..];
    }
  }

  /** Draws only append: one entry per roll, earlier entries untouched. */
  lemma {:induction false} DrawsAppend<T>(b: Bag<T>, rolls: seq<real>, numEasy: int, numMedium: int)
    requires ValidRolls(rolls)
    ensures |Draws(b, rolls, numEasy, numMedium).dealt| == |b.dealt| + |rolls|
    ensures Draws(b, rolls, numEasy, numMedium).dealt[..|b.dealt|] == b.dealt
  {
    if rolls != [] {
      var last := |rolls| - 1;
      var mid := Draws(b, rolls[..last], numEasy, numMedium);
      DrawsAppend(b, rolls[..last], numEasy, numMedium);
      DrawDeals(mid, rolls[last], numEasy, numMedium);
      assert Draws(b, rolls, numEasy, numMedium).dealt[..|mid.dealt|] == mid.dealt;
    }
  }

  /** One more roll is one more draw. */
  lemma DrawsSnoc<T>(b: Bag<T>, rolls: seq<real>, n: nat, numEasy: int, numMedium: int)
    requires ValidRolls(rolls) && n < |rolls|
    ensures Draws(b, rolls[..n + 1], numEasy, numMedium)
            == Draw(Draws(b, rolls[..n], numEasy, numMedium), rolls[n], numEasy, numMedium)
  {
    assert rolls[..n + 1][..n] == rolls[..n];
  }

  lemma ContentsSplit<T>(b: Bag<T>)
    ensures multiset(Contents(b))
            == multiset(Dealt(b.dealt)) + multiset(b.Pool(Easy)) + multiset(b.Pool(Medium)) + multiset(b.Pool(Hard))
  {
  }

  /** A draw neither creates nor loses a sequence: it moves one from a pool to the dealt list. */
  lemma DrawConserves<T>(b: Bag<T>, roll: real, numEasy: int, numMedium: int)
    requires ValidRoll(roll)
    ensures multiset(Contents(Draw(b, roll, numEasy, numMedium))) == multiset(Contents(b))
  {
    var b' := Draw(b, roll, numEasy, numMedium);
    DrawDeals(b, roll, numEasy, numMedium);
    ContentsSplit(b);
    ContentsSplit(b');
    var tier := TierOf(|b.dealt|, numEasy, numMedium);
    assert b'.dealt[..|b'.dealt| - 1] == b.dealt;
    var pool := b.Pool(tier);
    if pool != [] {
      var x := pool[PickIndex(roll, |pool|)];
      assert Dealt(b'.dealt) == Dealt(b.dealt) + [x];
      assert multiset(b'.Pool(tier)) + multiset{x} == multiset(pool);
    } else {
      assert Dealt(b'.dealt) == Dealt(b.dealt);
    }
  }

  lemma {:induction false} DrawsConserve<T>(b: Bag<T>, rolls: seq<real>, numEasy: int, numMedium: int)
    requires ValidRolls(rolls)
    ensures multiset(Contents(Draws(b, rolls, numEasy, numMedium))) == multiset(Contents(b))
  {
    if rolls != [] {
      var last := |rolls| - 1;
      DrawsConserve(b, rolls[..last], numEasy, numMedium);
      DrawConserves(Draws(b, rolls[..last], numEasy, numMedium), rolls[last], numEasy, numMedium);
    }
  }

  /**
   * If the generator starts with no sequence held twice (its pools are the
   * catalogue's distinct template objects), no sequence is ever dealt twice.
   */
  lemma NeverDealtTwice<T>(b: Bag<T>, rolls: seq<real>, numEasy: int, numMedium: int)
    requires ValidRolls(rolls)
    requires AtMostOnce(Contents(b))
    ensures AtMostOnce(Dealt(Draws(b, rolls, numEasy, numMedium).dealt))
  {
    var b' := Draws(b, rolls, numEasy, numMedium);
    DrawsConserve(b, rolls, numEasy, numMedium);
    forall x | x in multiset(Dealt(b'.dealt))
      ensures multiset(Dealt(b'.dealt))[x] == 1
    {
      assert multiset(Contents(b')) == multiset(Dealt(b'.dealt)) + multiset(b'.easy + b'.medium + b'.hard);
      assert x in multiset(Contents(b));
    }
  }
  /** Part of a collection that holds nothing twice holds nothing twice. */
  lemma AtMostOnceWithin<T>(a: seq<T>, b: seq<T>)
    requires multiset(a) <= multiset(b) && AtMostOnce(b)
    ensures AtMostOnce(a)
  {
    forall x | x in multiset(a)
      ensures multiset(a)[x] == 1
    {
      assert x in multiset(b);
    }
  }

  /**
   * A draw keeps every sequence held at most once, so the pools on their own
   * and the dealt list on its own hold nothing twice afterwards either.
   */
  lemma DrawKeepsDistinct<T>(b: Bag<T>, roll: real, numEasy: int, numMedium: int)
    requires ValidRoll(roll) && Distinct(Contents(b))
    ensures var b' := Draw(b, roll, numEasy, numMedium);
            && Distinct(Contents(b'))
            && Distinct(b'.easy + b'.medium + b'.hard)
  {
    var b' := Draw(b, roll, numEasy, numMedium);
    DistinctAtMostOnce(Contents(b));
    DrawConserves(b, roll, numEasy, numMedium);
    assert multiset(Contents(b')) == multiset(Contents(b));
    assert AtMostOnce(Contents(b'));
    assert multiset(Contents(b')) == multiset(Dealt(b'.dealt)) + multiset(b'.easy + b'.medium + b'.hard);
    AtMostOnceWithin(b'.easy + b'.medium + b'.hard, Contents(b'));
    AtMostOnceDistinct(Contents(b'));
    AtMostOnceDistinct(b'.easy + b'.medium + b'.hard);
  }

  /** Pools only ever lose elements: nothing puts a sequence back. */
  lemma {:induction false} DrawsShrinkPools<T>(b: Bag<T>, rolls: seq<real>, numEasy: int, numMedium: int, tier: Tier)
    requires ValidRolls(rolls)
    ensures multiset(Draws(b, rolls, numEasy, numMedium).Pool(tier)) <= multiset(b.Pool(tier))
  {
    if rolls != [] {
      var last := |rolls| - 1;
      var mid := Draws(b, rolls[..last], numEasy, numMedium);
      DrawsShrinkPools(b, rolls[..last], numEasy, numMedium, tier);
      DrawDeals(mid, rolls[last], numEasy, numMedium);
    }
  }

  /**
   * Every sequence dealt at position j came from the pool of j's tier:
   * easy below numEasy, medium below numEasy + numMedium, hard after.
   */
  lemma {:induction false} DrawsFromTier<T>(b: Bag<T>, rolls: seq<real>, numEasy: int, numMedium: int, j: nat)
    requires ValidRolls(rolls)
    requires |b.dealt| <= j < |b.dealt| + |rolls|
    ensures |Draws(b, rolls, numEasy, numMedium).dealt| == |b.dealt| + |rolls|
    ensures Draws(b, rolls, numEasy, numMedium).dealt[j].Some? ==>
              Draws(b, rolls, numEasy, numMedium).dealt[j].value in b.Pool(TierOf(j, numEasy, numMedium))
  {
    DrawsAppend(b, rolls, numEasy, numMedium);
    var last := |rolls| - 1;
    var mid := Draws(b, rolls[..last], numEasy, numMedium);
    DrawsAppend(b, rolls[..last], numEasy, numMedium);
    DrawDeals(mid, rolls[last], numEasy, numMedium);
    var b' := Draws(b, rolls, numEasy, numMedium);
    if j < |mid.dealt| {
      assert b'.dealt[j] == b'.dealt[..|mid.dealt|][j] == mid.dealt[j];
      DrawsFromTier(b, rolls[..last], numEasy, numMedium, j);
    } else {
      var tier := TierOf(j, numEasy, numMedium);
      DrawsShrinkPools(b, rolls[..last], numEasy, numMedium, tier);
      if b'.dealt[j].Some? {
        assert b'.dealt[j].value in multiset(mid.Pool(tier));
      }
    }
  }

  /**
   * The refill does not refill. While every draw falls in one tier, the first
   * |pool| draws deal a sequence each and every later draw deals nothing
   * (undefined), because the emptied pool stays empty.
   */
  lemma {:induction false} TierRunsDry<T>(b: Bag<T>, rolls: seq<real>, numEasy: int, numMedium: int, tier: Tier)
    requires ValidRolls(rolls)
    requires forall j | |b.dealt| <= j < |b.dealt| + |rolls| :: TierOf(j, numEasy, numMedium) == tier
    ensures |Draws(b, rolls, numEasy, numMedium).dealt| == |b.dealt| + |rolls|
    ensures |Draws(b, rolls, numEasy, numMedium).Pool(tier)|
            == if |rolls| <= |b.Pool(tier)| then |b.Pool(tier)| - |rolls| else 0
    ensures forall j | |b.dealt| <= j < |b.dealt| + |rolls| ::
              Draws(b, rolls, numEasy, numMedium).dealt[j].Some? <==> j - |b.dealt| < |b.Pool(tier)|
  {
    if rolls != [] {
      var last := |rolls| - 1;
      var mid := Draws(b, rolls[..last], numEasy, numMedium);
      var b' := Draws(b, rolls, numEasy, numMedium);
      assert b' == Draw(mid, rolls[last], numEasy, numMedium);
      TierRunsDry(b, rolls[..last], numEasy, numMedium, tier);
      DrawDeals(mid, rolls[last], numEasy, numMedium);
      assert |mid.dealt| == |b.dealt| + last;
      assert TierOf(|mid.dealt|, numEasy, numMedium) == tier;
      assert b'.Pool(tier) == [] || |b'.Pool(tier)| == |mid.Pool(tier)| - 1;
      forall j | |b.dealt| <= j < |b.dealt| + |rolls|
        ensures b'.dealt[j].Some? <==> j - |b.dealt| < |b.Pool(tier)|
      {
        if j < |mid.dealt| {
          assert b'.dealt[j] == b'.dealt[..|mid.dealt|][j];
        } else {
          assert j == |mid.dealt|;
          assert mid.Pool(tier) != [] <==> last < |b.Pool(tier)|;
        }
      }
    }
  }

  predicate Distinct<T(==)>(s: seq<T>) {
    forall i, j | 0 <= i < j < |s| :: s[i] != s[j]
  }

  /** A prefix of a sequence of distinct elements has distinct elements. */
  lemma DistinctPrefix<T>(a: seq<T>, b: seq<T>)
    requires Distinct(a + b)
    ensures Distinct(a)
  {
    assert forall i | 0 <= i < |a| :: a[i] == (a + b)[i];
  }

  /** Elements each held once are pairwise distinct. */
  lemma AtMostOnceDistinct<T>(s: seq<T>)
    requires AtMostOnce(s)
    ensures Distinct(s)
  {
    forall i, j | 0 <= i < j < |s|
      ensures s[i] != s[j]
    {
      assert s == s[..j] + [s[j]] + s[j + 1..];
      assert multiset(s)[s[j]] == multiset(s[..j])[s[j]] + 1 + multiset(s[j + 1..])[s[j]];
      assert s[j] !in s[..j];
      assert s[i] in s[..j];
    }
  }

  /** Pairwise distinct elements are each held once. */
  lemma {:induction false} DistinctAtMostOnce<T>(s: seq<T>)
    requires Distinct(s)
    ensures AtMostOnce(s)
  {
    if s != [] {
      var last := |s| - 1;
      DistinctAtMostOnce(s[..last]);
      assert s == s[..last] + [s[last]];
      assert s[last] !in s[..last];
    }
  }
}
