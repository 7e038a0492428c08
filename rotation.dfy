/**
  The rotation scheduler: which athlete stands on which boulder at a given
  round index. This is the pure specification of what
  `CompetitionManager._advanceRoundState` rebuilds into `ondeck` after it
  has raised the round index; the class method is proved to produce exactly
  `Ondeck(roundState, athletes, settings)`.
 */
module Rotation {
  import opened Wrappers
  import opened Athletes

  /** The round settings. `leadMode` and `zones` are carried but never read by the engine. */
  datatype RoundSettings = RoundSettings(
    timerMode: int,
    finalsMode: bool,
    leadMode: bool,
    finalsClimbers: int,
    turnover: int,
    boulders: int,
    zones: int)

  /** The defaults of helpers/config.js. */
  const DefaultSettings := RoundSettings(300, false, false, 1, 15, 5, 0)

  /** One entry of a category's on-deck bucket: a boulder and its occupant, if any. */
  datatype Slot = Slot(boulder: int, athlete: Option<Athlete>)

  function Max(a: int, b: int): int { if a >= b then a else b }

  function Min(a: int, b: int): int { if a <= b then a else b }

  /** `arr[i]` when `0 <= i < arr.length`, otherwise `null`. */
  function AthleteAt(roster: seq<Athlete>, i: int): (r: Option<Athlete>)
    ensures r.Some? <==> 0 <= i < |roster|
  {
    if 0 <= i < |roster| then Some(roster[i]) else None
  }

  /** `maxFinalists`: the largest roster size, 0 when there are no rosters. */
  function MaxRosterSize(rosters: seq<seq<Athlete>>): (m: nat)
    ensures forall c :: 0 <= c < |rosters| ==> |rosters[c]| <= m
    ensures m == 0 || exists c :: 0 <= c < |rosters| && |rosters[c]| == m
  {
    if rosters == [] then 0
    else
      var init := rosters[..|rosters| - 1];
      var m := Max(MaxRosterSize(init), |rosters[|rosters| - 1]|);
      assert forall c :: 0 <= c < |init| ==> rosters[c] == init[c];
      m
  }

  /** `Math.ceil(a / b)` for a positive divisor. */
  function CeilDiv(a: int, b: int): int
    requires b > 0
  {
    (a + b - 1) / b
  }

  /** `climbersOnWall = min(max(1, finalsClimbers || 1), boulders)`; `|| 1` only replaces 0, which `max` already does. */
  function ClimbersOnWall(s: RoundSettings): (n: int)
    ensures s.boulders >= 1 ==> 1 <= n <= s.boulders
    ensures n <= Max(1, s.finalsClimbers)
  {
    Min(Max(1, s.finalsClimbers), s.boulders)
  }

  /**
    `offset = max(1, ceil(maxFinalists / climbersOnWall))`. When there are no
    boulders `climbersOnWall` is not positive and the offset is never used.
   */
  function FinalsOffset(maxFinalists: nat, s: RoundSettings): (offset: int)
    ensures offset >= 1
  {
    var onWall := ClimbersOnWall(s);
    if onWall >= 1 then Max(1, CeilDiv(maxFinalists, onWall)) else 1
  }

  /** Boulder `b` is active at round `r` in finals: `start <= r < start + maxFinalists`, `start = (b - 1) * offset`. */
  predicate InWindow(r: int, b: int, offset: int, maxFinalists: int) {
    (b - 1) * offset <= r < (b - 1) * offset + maxFinalists
  }

  /** Round-robin bucket for boulders 1..k: boulder `b` holds `athletes[r - 2 * (b - 1)]` or nobody. */
  function RoundRobinSlots(r: int, roster: seq<Athlete>, k: int): (slots: seq<Slot>)
    ensures |slots| == Max(0, k)
    decreases k
  {
    if k <= 0 then []
    else RoundRobinSlots(r, roster, k - 1) + [Slot(k, AthleteAt(roster, r - 2 * (k - 1)))]
  }

  /** Every entry names a boulder among 1..k. */
  predicate BouldersWithin(slots: seq<Slot>, k: int) {
    forall i :: 0 <= i < |slots| ==> 1 <= slots[i].boulder <= k
  }

  /** Entries are in strictly increasing boulder order. */
  predicate Ascending(slots: seq<Slot>) {
    forall i, j :: 0 <= i < j < |slots| ==> slots[i].boulder < slots[j].boulder
  }

  /** Finals bucket for boulders 1..k: only boulders whose window holds `r`, in boulder order. */
  function FinalsSlots(r: int, roster: seq<Athlete>, maxFinalists: int, offset: int, k: int): (slots: seq<Slot>)
    ensures |slots| <= Max(0, k)
    decreases k
  {
    if k <= 0 then []
    else
      var prev := FinalsSlots(r, roster, maxFinalists, offset, k - 1);
      var start := (k - 1) * offset;
      if start <= r < start + maxFinalists then prev + [Slot(k, AthleteAt(roster, r - start))]
      else prev
  }

  /** The finals bucket lists boulders among 1..k, in strictly increasing order. */
  lemma {:induction false} FinalsSlotsOrdered(r: int, roster: seq<Athlete>, maxFinalists: int, offset: int, k: int)
    ensures BouldersWithin(FinalsSlots(r, roster, maxFinalists, offset, k), k)
    ensures Ascending(FinalsSlots(r, roster, maxFinalists, offset, k))
    decreases k
  {
    if k > 0 {
      FinalsSlotsOrdered(r, roster, maxFinalists, offset, k - 1);
    }
  }

  /** One category's bucket after the round index has become `r`. */
  function CategoryOndeck(r: int, roster: seq<Athlete>, maxFinalists: nat, s: RoundSettings): (bucket: seq<Slot>)
    ensures |bucket| <= Max(0, s.boulders)
    ensures r < 0 ==> bucket == []
    ensures r >= 0 && !s.finalsMode ==> |bucket| == Max(0, s.boulders)
  {
    if r < 0 then []
    else if s.finalsMode then
      if maxFinalists == 0 then []
      else FinalsSlots(r, roster, maxFinalists, FinalsOffset(maxFinalists, s), s.boulders)
    else RoundRobinSlots(r, roster, s.boulders)
  }

  /** The whole `ondeck` table: one bucket per category, in category order. */
  function Ondeck(r: int, rosters: seq<seq<Athlete>>, s: RoundSettings): (o: seq<seq<Slot>>)
    ensures |o| == |rosters|
    ensures r < 0 ==> forall c :: 0 <= c < |o| ==> o[c] == []
  {
    seq(|rosters|, c requires 0 <= c < |rosters| => CategoryOndeck(r, rosters[c], MaxRosterSize(rosters), s))
  }

  // ---------------------------------------------------------------- round robin

  /** Round robin: exactly `k` entries, numbered 1..k in order, boulder `b` holding `athletes[r - 2(b - 1)]` when in range. */
  lemma {:induction false} RoundRobinSlotAt(r: int, roster: seq<Athlete>, k: int, b: int)
    requires 1 <= b <= k
    ensures |RoundRobinSlots(r, roster, k)| == k
    ensures RoundRobinSlots(r, roster, k)[b - 1] == Slot(b, AthleteAt(roster, r - 2 * (b - 1)))
    decreases k
  {
    if b < k {
      RoundRobinSlotAt(r, roster, k - 1, b);
    }
  }

  /** Round robin: athlete `i` of a roster without repeats stands on boulder `b` exactly at round `i + 2(b - 1)`. */
  lemma RoundRobinVisitsOnce(r: int, roster: seq<Athlete>, k: int, i: int, b: int)
    requires Distinct(roster)
    requires 0 <= i < |roster| && 1 <= b <= k
    ensures RoundRobinSlots(r, roster, k)[b - 1].athlete == Some(roster[i]) <==> r == i + 2 * (b - 1)
  {
    RoundRobinSlotAt(r, roster, k, b);
  }

  // ---------------------------------------------------------------- finals

  /** Finals: a slot is listed exactly when its boulder's window holds `r`, with `finalists[r - start]` or nobody. */
  lemma {:induction false} FinalsSlotMember(r: int, roster: seq<Athlete>, maxFinalists: int, offset: int, k: int, slot: Slot)
    ensures slot in FinalsSlots(r, roster, maxFinalists, offset, k) <==>
              && 1 <= slot.boulder <= k
              && InWindow(r, slot.boulder, offset, maxFinalists)
              && slot.athlete == AthleteAt(roster, r - (slot.boulder - 1) * offset)
    decreases k
  {
    if k > 0 {
      var prev := FinalsSlots(r, roster, maxFinalists, offset, k - 1);
      FinalsSlotMember(r, roster, maxFinalists, offset, k - 1, slot);
      FinalsSlotsOrdered(r, roster, maxFinalists, offset, k - 1);
      var start := (k - 1) * offset;
      var here := Slot(k, AthleteAt(roster, r - start));
      assert slot in prev ==> slot.boulder <= k - 1;
      if start <= r < start + maxFinalists {
        assert FinalsSlots(r, roster, maxFinalists, offset, k) == prev + [here];
        assert slot in prev + [here] <==> slot in prev || slot == here;
      } else {
        assert FinalsSlots(r, roster, maxFinalists, offset, k) == prev;
        assert !InWindow(r, k, offset, maxFinalists);
      }
    }
  }

  /** Finals: athlete `i` of a roster without repeats sits on boulder `b` exactly at round `(b - 1) * offset + i`. */
  lemma FinalsVisitsOnce(r: int, roster: seq<Athlete>, maxFinalists: int, offset: int, k: int, i: int, b: int)
    requires Distinct(roster)
    requires 0 <= i < |roster| <= maxFinalists && 1 <= b <= k
    ensures Slot(b, Some(roster[i])) in FinalsSlots(r, roster, maxFinalists, offset, k) <==> r == (b - 1) * offset + i
  {
    FinalsSlotMember(r, roster, maxFinalists, offset, k, Slot(b, Some(roster[i])));
  }

  /** `ceil`: the offset is the least multiplier that makes `climbersOnWall` windows cover `maxFinalists`. */
  lemma CeilDivIsCeiling(a: int, b: int)
    requires b > 0
    ensures b * CeilDiv(a, b) >= a
    ensures b * (CeilDiv(a, b) - 1) < a
  {
    var q := CeilDiv(a, b);
    var x := a + b - 1;
    assert x == b * q + x % b && 0 <= x % b < b;
  }

  lemma MulMonotone(x: int, y: int, c: int)
    requires c > 0
    ensures x < y <==> x * c < y * c
    ensures x <= y <==> x * c <= y * c
  {
    assert y * c - x * c == (y - x) * c;
  }

  /** Two boulders active at the same round start less than `maxFinalists` rounds apart. */
  lemma WindowSpread(r: int, b1: int, b2: int, offset: int, maxFinalists: int)
    requires InWindow(r, b1, offset, maxFinalists) && InWindow(r, b2, offset, maxFinalists)
    ensures (b2 - b1) * offset < maxFinalists
  {
    assert (b2 - 1) * offset - (b1 - 1) * offset == (b2 - b1) * offset;
  }

  /** Strictly increasing boulder numbers spread at least one apart per entry. */
  lemma {:induction false} SortedSpread(slots: seq<Slot>, j: int)
    requires Ascending(slots)
    requires 0 <= j < |slots|
    ensures slots[j].boulder - slots[0].boulder >= j
    decreases j
  {
    if j > 0 {
      SortedSpread(slots, j - 1);
    }
  }

  /** `climbersOnWall` windows of `offset` rounds cover all `maxFinalists` positions. */
  lemma OffsetCovers(maxFinalists: nat, s: RoundSettings)
    requires maxFinalists >= 1 && s.boulders >= 1
    ensures FinalsOffset(maxFinalists, s) >= 1
    ensures ClimbersOnWall(s) * FinalsOffset(maxFinalists, s) >= maxFinalists
  {
    var onWall := ClimbersOnWall(s);
    CeilDivIsCeiling(maxFinalists, onWall);
    MulMonotone(CeilDiv(maxFinalists, onWall), FinalsOffset(maxFinalists, s), onWall);
  }

  /** `m` entries at least one boulder apart, spread over less than `onWall` offsets, number at most `onWall`. */
  lemma CountBound(m: int, spread: int, offset: int, maxFinalists: int, onWall: int)
    requires offset >= 1 && m - 1 <= spread
    requires spread * offset < maxFinalists <= onWall * offset
    ensures m <= onWall
  {
    MulMonotone(m - 1, spread, offset);
    MulMonotone(m - 1, onWall, offset);
  }

  /**
    Finals overlap bound: at any round at most `climbersOnWall` boulders of a
    category are active at once, which is what the offset is chosen for.
   */
  lemma FinalsOverlapBound(r: int, roster: seq<Athlete>, maxFinalists: nat, s: RoundSettings)
    requires maxFinalists >= 1 && s.boulders >= 1
    ensures |FinalsSlots(r, roster, maxFinalists, FinalsOffset(maxFinalists, s), s.boulders)| <= ClimbersOnWall(s)
  {
    var onWall := ClimbersOnWall(s);
    var offset := FinalsOffset(maxFinalists, s);
    var slots := FinalsSlots(r, roster, maxFinalists, offset, s.boulders);
    var m := |slots|;
    if m > 1 {
      var first, last := slots[0], slots[m - 1];
      FinalsSlotMember(r, roster, maxFinalists, offset, s.boulders, first);
      FinalsSlotMember(r, roster, maxFinalists, offset, s.boulders, last);
      FinalsSlotsOrdered(r, roster, maxFinalists, offset, s.boulders);
      SortedSpread(slots, m - 1);
      WindowSpread(r, first.boulder, last.boulder, offset, maxFinalists);
      OffsetCovers(maxFinalists, s);
      CountBound(m, last.boulder - first.boulder, offset, maxFinalists, onWall);
    }
  }

  /** Finals with every roster empty: every bucket stays empty. */
  lemma EmptyRostersEmptyFinals(r: int, rosters: seq<seq<Athlete>>, s: RoundSettings)
    requires s.finalsMode
    requires forall c :: 0 <= c < |rosters| ==> rosters[c] == []
    ensures forall c :: 0 <= c < |rosters| ==> Ondeck(r, rosters, s)[c] == []
  {
    assert MaxRosterSize(rosters) == 0;
  }

  // ---------------------------------------------------------------- placements

  /**
    Placement by athlete and boulder in normal rounds: stepping the round
    index to `p + 2(b - 1)` puts the athlete at position `p` on boulder `b`.
   */
  lemma RoundRobinPlacement(roster: seq<Athlete>, maxFinalists: nat, s: RoundSettings, p: int, b: int)
    requires !s.finalsMode
    requires 0 <= p < |roster| && 1 <= b <= s.boulders
    ensures CategoryOndeck(p + 2 * (b - 1), roster, maxFinalists, s)[b - 1] == Slot(b, Some(roster[p]))
  {
    RoundRobinSlotAt(p + 2 * (b - 1), roster, s.boulders, b);
  }

  /**
    Placement by athlete and boulder in finals multiplies by the category's
    size: it lands the athlete on the boulder when one climber is on the wall
    and the category is the largest one.
   */
  lemma FinalsPlacementOneOnWall(roster: seq<Athlete>, s: RoundSettings, p: int, b: int)
    requires s.finalsMode && ClimbersOnWall(s) == 1
    requires 0 <= p < |roster| && 1 <= b <= s.boulders
    ensures Slot(b, Some(roster[p])) in CategoryOndeck(p + |roster| * (b - 1), roster, |roster|, s)
  {
    var n := |roster|;
    assert CeilDiv(n, 1) == n;
    assert FinalsOffset(n, s) == n;
    var r := p + n * (b - 1);
    assert r >= 0;
    FinalsSlotMember(r, roster, n, n, s.boulders, Slot(b, Some(roster[p])));
  }

  /**
    With two climbers on the wall the same placement misses: four finalists,
    four boulders, athlete 0 asked onto boulder 2 gives 4 steps, and at round 4
    boulder 2 holds athlete 2.
   */
  lemma FinalsPlacementTwoOnWall(roster: seq<Athlete>)
    requires |roster| == 4 && Distinct(roster)
    ensures var s := RoundSettings(300, true, false, 2, 15, 4, 0);
            && Slot(2, Some(roster[0])) !in CategoryOndeck(0 + |roster| * (2 - 1), roster, |roster|, s)
            && Slot(2, Some(roster[2])) in CategoryOndeck(0 + |roster| * (2 - 1), roster, |roster|, s)
  {
    var s := RoundSettings(300, true, false, 2, 15, 4, 0);
    assert FinalsOffset(4, s) == 2;
    FinalsSlotMember(4, roster, 4, 2, 4, Slot(2, Some(roster[0])));
    FinalsSlotMember(4, roster, 4, 2, 4, Slot(2, Some(roster[2])));
  }

  /** Defaults (5 boulders, normal rounds), twelve athletes, round 1: boulder 1 holds athlete 1 and boulder 2 nobody. */
  lemma DefaultScenarioRoundOne(roster: seq<Athlete>)
    requires |roster| == 12
    ensures Ondeck(1, [roster, [], []], DefaultSettings)[0][0] == Slot(1, Some(roster[1]))
    ensures Ondeck(1, [roster, [], []], DefaultSettings)[0][1] == Slot(2, None)
  {
    RoundRobinSlotAt(1, roster, 5, 1);
    RoundRobinSlotAt(1, roster, 5, 2);
  }
}
