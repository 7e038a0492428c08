/**
  The competition engine, `CompetitionManager`: round settings, three
  category rosters and their group names, the derived `ondeck` table, the
  round index, the stage and turnover countdowns and the phase flags.

  The two `setInterval` callbacks are the methods `StageTick` and
  `TurnoverTick`; which interval is set is the field `clock`. Broadcasts and
  logging are not modelled; calls into the sound, status-file and
  state-file ports are returned as `calls`, in order.
 */
module Competition {
  import opened Wrappers
  import opened Athletes
  import opened Rotation
  import opened Status

  /** Which interval is set. The source never sets both (see README). */
  datatype Clock = Idle | StageClock | TurnoverClock

  /** The `changeRoundState` payload; 0 stands for a `stage` or `time` that is absent or not a number. */
  datatype RoundChange = RoundChange(athleteId: string, boulder: int, stage: int, time: int)

  /**
    The `handleAthleteUpload` payload: `delete === "yes"`, the `athletes` value
    (`None` when it is not an array), the group name, and the category key
    parsed from `group-N`.
   */
  datatype Upload = Upload(deleteAll: bool, athletes: Option<seq<Athlete>>, groupName: string, groupNumber: int)

  datatype UploadReply = Stored(message: string) | Rejected(error: string)

  /** A partial settings object: `None` for a key it does not carry. */
  datatype SettingsPatch = SettingsPatch(
    timerMode: Option<int>,
    finalsMode: Option<bool>,
    leadMode: Option<bool>,
    finalsClimbers: Option<int>,
    turnover: Option<int>,
    boulders: Option<int>,
    zones: Option<int>)

  /** The countdown of the first turnover of a round in normal mode. */
  const PreRoundTurnover := 6

  /** The stage length of the observation timer, which never turns over. */
  const ObservationTimerMode := 120

  const NumCategories := 3

  function Pick<T>(o: Option<T>, current: T): T {
    match o
    case Some(v) => v
    case None => current
  }

  /** `Object.assign(roundSettings, newSettings)`: every key the patch carries replaces the setting. */
  function Merge(s: RoundSettings, p: SettingsPatch): (r: RoundSettings)
    ensures p.timerMode.Some? ==> r.timerMode == p.timerMode.value
    ensures p.timerMode.None? ==> r.timerMode == s.timerMode
    ensures p.finalsMode.Some? ==> r.finalsMode == p.finalsMode.value
    ensures p.finalsMode.None? ==> r.finalsMode == s.finalsMode
    ensures p.leadMode.Some? ==> r.leadMode == p.leadMode.value
    ensures p.leadMode.None? ==> r.leadMode == s.leadMode
    ensures p.finalsClimbers.Some? ==> r.finalsClimbers == p.finalsClimbers.value
    ensures p.finalsClimbers.None? ==> r.finalsClimbers == s.finalsClimbers
    ensures p.turnover.Some? ==> r.turnover == p.turnover.value
    ensures p.turnover.None? ==> r.turnover == s.turnover
    ensures p.boulders.Some? ==> r.boulders == p.boulders.value
    ensures p.boulders.None? ==> r.boulders == s.boulders
    ensures p.zones.Some? ==> r.zones == p.zones.value
    ensures p.zones.None? ==> r.zones == s.zones
    ensures p == SettingsPatch(None, None, None, None, None, None, None) ==> r == s
  {
    RoundSettings(
      Pick(p.timerMode, s.timerMode),
      Pick(p.finalsMode, s.finalsMode),
      Pick(p.leadMode, s.leadMode),
      Pick(p.finalsClimbers, s.finalsClimbers),
      Pick(p.turnover, s.turnover),
      Pick(p.boulders, s.boulders),
      Pick(p.zones, s.zones))
  }

  /** `newSettings.timerMode && roundSettings.timerMode !== newSettings.timerMode` */
  predicate ReloadsStage(s: RoundSettings, p: SettingsPatch) {
    p.timerMode.Some? && p.timerMode.value != 0 && p.timerMode.value != s.timerMode
  }

  /** A category and a position in its roster. */
  datatype Placement = Placement(category: nat, index: nat)

  /** `roster.findIndex(a => a.id === id)`, `None` for -1. */
  function FindIndex(roster: seq<Athlete>, id: string): (r: Option<nat>)
    ensures r.Some? ==> r.value < |roster| && roster[r.value].id == id
    ensures r.Some? ==> forall j :: 0 <= j < r.value ==> roster[j].id != id
    ensures r.None? ==> forall j :: 0 <= j < |roster| ==> roster[j].id != id
  {
    if roster == [] then None
    else if roster[0].id == id then Some(0)
    else match FindIndex(roster[1..], id)
      case Some(i) => Some(i + 1)
      case None => None
  }

  /** No roster from category `c` on holds an athlete with this id. */
  predicate AbsentFrom(rosters: seq<seq<Athlete>>, id: string, c: nat) {
    forall c', j :: c <= c' < |rosters| && 0 <= j < |rosters[c']| ==> rosters[c'][j].id != id
  }

  /** The first category from `c` on, in key order, whose roster holds the id, and the first position there. */
  function LocateFrom(rosters: seq<seq<Athlete>>, id: string, c: nat): (r: Option<Placement>)
    ensures r.Some? ==> c <= r.value.category < |rosters| && r.value.index < |rosters[r.value.category]|
    ensures r.Some? ==> rosters[r.value.category][r.value.index].id == id
    ensures r.Some? ==> forall j :: 0 <= j < r.value.index ==> rosters[r.value.category][j].id != id
    ensures r.Some? ==> forall c', j :: c <= c' < r.value.category && 0 <= j < |rosters[c']| ==> rosters[c'][j].id != id
    ensures r.None? <==> AbsentFrom(rosters, id, c)
    decreases |rosters| - c
  {
    if c >= |rosters| then None
    else match FindIndex(rosters[c], id)
      case Some(i) => Some(Placement(c, i))
      case None => LocateFrom(rosters, id, c + 1)
  }

  function Locate(rosters: seq<seq<Athlete>>, id: string): (r: Option<Placement>)
    ensures r.None? <==> AbsentFrom(rosters, id, 0)
  {
    LocateFrom(rosters, id, 0)
  }

  /**
    How many times `_selectRoundState` advances for a non-negative stage:
    `stage - 1` for an explicit stage, `p + m * (boulder - 1)` for a placement
    (`m` the category's size in finals, 2 otherwise), one more when a time is
    given; `None` when the athlete id is unknown.
   */
  function JumpSteps(data: RoundChange, rosters: seq<seq<Athlete>>, s: RoundSettings): (steps: Option<int>)
    requires data.stage >= 0
    ensures steps.None? <==> data.stage == 0 && AbsentFrom(rosters, data.athleteId, 0)
    ensures data.stage > 0 ==> steps == Some(data.stage - 1 + if data.time != 0 then 1 else 0)
  {
    var bump := if data.time != 0 then 1 else 0;
    if data.stage != 0 then Some(data.stage - 1 + bump)
    else match Locate(rosters, data.athleteId)
      case None => None
      case Some(p) =>
        var multiplier := if s.finalsMode then |rosters[p.category]| else 2;
        Some(p.index + multiplier * (data.boulder - 1) + bump)
  }

  /** The state-file writes of the advances from round `first` to round `last`. */
  function SaveCalls(name: string, first: int, last: int, time: int): (calls: seq<PortCall>)
    requires first <= last
    ensures |calls| == last - first
    decreases last - first
  {
    if first == last then [] else SaveCalls(name, first, last - 1, time) + [SaveState(name, last, time)]
  }

  /** The jump saves every round it passes through, in order, each with the same stage time. */
  lemma {:induction false} SaveCallsRounds(name: string, first: int, last: int, time: int)
    requires first <= last
    ensures forall i :: 0 <= i < last - first ==> SaveCalls(name, first, last, time)[i] == SaveState(name, first + 1 + i, time)
    decreases last - first
  {
    if first < last {
      SaveCallsRounds(name, first, last - 1, time);
    }
  }

  /**
    A jump in a normal round, without a preset time, to a known athlete and
    an existing boulder, that advances at least once.
   */
  predicate JumpsToAthlete(data: RoundChange, rosters: seq<seq<Athlete>>, s: RoundSettings) {
    && !s.finalsMode && data.stage == 0 && data.time == 0
    && Locate(rosters, data.athleteId).Some?
    && 1 <= data.boulder <= s.boulders
    && Locate(rosters, data.athleteId).value.index + 2 * (data.boulder - 1) >= 1
  }

  /** Such a jump lands on the round in which that athlete is on deck for that boulder. */
  lemma JumpPlacement(data: RoundChange, rosters: seq<seq<Athlete>>, s: RoundSettings)
    requires JumpsToAthlete(data, rosters, s)
    ensures var p := Locate(rosters, data.athleteId).value;
      var r := p.index + 2 * (data.boulder - 1);
      && JumpSteps(data, rosters, s) == Some(r)
      && Ondeck(r, rosters, s)[p.category][data.boulder - 1] == Slot(data.boulder, Some(rosters[p.category][p.index]))
  {
    var p := Locate(rosters, data.athleteId).value;
    RoundRobinPlacement(rosters[p.category], MaxRosterSize(rosters), s, p.index, data.boulder);
  }

  /**
    Where `_selectRoundState`, entered at round 0 with table `before`, leaves
    the round index `r` and the table: a negative stage sets `stage - 1`
    directly, an unknown athlete changes nothing, and otherwise the round
    advances `JumpSteps` times.
   */
  predicate JumpOutcome(data: RoundChange, rosters: seq<seq<Athlete>>, s: RoundSettings,
                        before: seq<seq<Slot>>, r: int, table: seq<seq<Slot>>) {
    if data.stage < 0 then r == data.stage - 1 && table == Ondeck(r, rosters, s)
    else match JumpSteps(data, rosters, s)
      case None => r == 0 && table == before
      case Some(steps) => r == Max(0, steps) && table == (if steps >= 1 then Ondeck(r, rosters, s) else before)
  }

  /** The engine's jump to an athlete and a boulder ends with that athlete on that boulder's entry. */
  lemma JumpLandsOnAthlete(data: RoundChange, rosters: seq<seq<Athlete>>, s: RoundSettings,
                           before: seq<seq<Slot>>, r: int, table: seq<seq<Slot>>)
    requires JumpsToAthlete(data, rosters, s) && JumpOutcome(data, rosters, s, before, r, table)
    ensures var p := Locate(rosters, data.athleteId).value;
      && p.category < |table| && data.boulder - 1 < |table[p.category]|
      && table[p.category][data.boulder - 1] == Slot(data.boulder, Some(rosters[p.category][p.index]))
  {
    JumpPlacement(data, rosters, s);
  }

  /** Some category has a non-empty group name. */
  predicate AnyGroupNamed(groups: seq<string>) {
    exists c :: 0 <= c < |groups| && groups[c] != ""
  }

  /**
    The inner finals loop of `_advanceRoundState` for one category: boulders
    1..totalBoulders in order, an entry only where the boulder's window
    `[(b - 1) * offset, (b - 1) * offset + maxFinalists)` holds the round.
   */
  method FinalsBucket(r: int, finalists: seq<Athlete>, maxFinalists: int, offset: int, totalBoulders: int)
    returns (bucket: seq<Slot>)
    ensures bucket == FinalsSlots(r, finalists, maxFinalists, offset, totalBoulders)
  {
    bucket := [];
    var n := |finalists|;
    var boulder := 1;
    while boulder <= totalBoulders
      invariant 1 <= boulder <= Max(1, totalBoulders + 1)
      invariant bucket == FinalsSlots(r, finalists, maxFinalists, offset, boulder - 1)
    {
      var start := (boulder - 1) * offset;
      var endExclusive := start + maxFinalists;
      if r >= start && r < endExclusive {
        var globalIndex := r - start;
        var athlete := if globalIndex < n then Some(finalists[globalIndex]) else None;
        bucket := bucket + [Slot(boulder, athlete)];
      }
      boulder := boulder + 1;
    }
  }

  /** The inner normal-round loop for one category: boulder `b` gets `athletes[r - 2(b - 1)]`, or nobody. */
  method RoundRobinBucket(r: int, arr: seq<Athlete>, totalBoulders: int) returns (bucket: seq<Slot>)
    ensures bucket == RoundRobinSlots(r, arr, totalBoulders)
  {
    bucket := [];
    var boulder := 1;
    while boulder <= totalBoulders
      invariant 1 <= boulder <= Max(1, totalBoulders + 1)
      invariant bucket == RoundRobinSlots(r, arr, boulder - 1)
    {
      var nextUp := r - 2 * (boulder - 1);
      var athlete := if nextUp >= 0 && nextUp < |arr| then Some(arr[nextUp]) else None;
      bucket := bucket + [Slot(boulder, athlete)];
      boulder := boulder + 1;
    }
  }

  class CompetitionManager {
    var settings: RoundSettings
    var athletes: seq<seq<Athlete>>
    var groups: seq<string>
    var ondeck: seq<seq<Slot>>
    var roundState: int
    var roundName: string
    var remainingTime: int
    var remainingTurnoverTime: int
    var startInStageTime: int
    var betweenRounds: bool
    var roundStarted: bool
    var nextClimberFlag: bool
    var writeErrorFlag: bool
    var clock: Clock

    /** Three categories; a clock runs, or the next-climber flag is up, only once the round has started. */
    ghost predicate Valid()
      reads this
    {
      && |athletes| == NumCategories && |groups| == NumCategories && |ondeck| == NumCategories
      && (clock != Idle ==> roundStarted)
      && (nextClimberFlag ==> roundStarted)
    }

    /** A fresh engine with the given settings, after `_reset`. */
    constructor (initial: RoundSettings)
      ensures Valid()
      ensures settings == initial && roundName == ""
      ensures athletes == [[], [], []] && groups == ["", "", ""] && ondeck == [[], [], []]
      ensures roundState == 0 && remainingTime == initial.timerMode
      ensures remainingTurnoverTime == 0 && startInStageTime == 0
      ensures !betweenRounds && !roundStarted && !nextClimberFlag && !writeErrorFlag
      ensures clock == Idle
    {
      settings := initial;
      athletes := [[], [], []];
      groups := ["", "", ""];
      ondeck := [[], [], []];
      roundState := 0;
      roundName := "";
      remainingTime := initial.timerMode;
      remainingTurnoverTime := 0;
      startInStageTime := 0;
      betweenRounds := false;
      roundStarted := false;
      nextClimberFlag := false;
      writeErrorFlag := false;
      clock := Idle;
    }

    /** `_clearAllIntervals`: no clock runs afterwards. */
    method ClearAllIntervals()
      modifies this`clock
      ensures clock == Idle
    {
      clock := Idle;
    }

    /** `_reset`: stage time back to the setting, flags down, clocks stopped. */
    method Reset() returns (calls: seq<PortCall>)
      requires Valid()
      modifies this`remainingTime, this`betweenRounds, this`roundStarted, this`nextClimberFlag, this`clock
      ensures Valid()
      ensures remainingTime == settings.timerMode && clock == Idle
      ensures !betweenRounds && !roundStarted && !nextClimberFlag
      ensures calls == TimerUpdateCalls(remainingTime, false, roundState)
    {
      remainingTime := settings.timerMode;
      betweenRounds := false;
      roundStarted := false;
      nextClimberFlag := false;
      ClearAllIntervals();
      calls := TimerUpdateCalls(remainingTime, betweenRounds, roundState);
    }

    /** `_clearData`: empty rosters, group names and buckets. */
    method ClearData()
      requires Valid()
      modifies this`athletes, this`groups, this`ondeck
      ensures Valid()
      ensures athletes == [[], [], []] && groups == ["", "", ""] && ondeck == [[], [], []]
    {
      athletes := [[], [], []];
      groups := ["", "", ""];
      ondeck := [[], [], []];
    }

    /** `_runTimer`: the stage clock runs (replacing itself if it already did). */
    method RunTimer()
      requires Valid() && roundStarted
      modifies this`clock
      ensures Valid() && clock == StageClock
    {
      clock := StageClock;
    }

    /** `_runTurnoverTimer`: reload the turnover only when it is used up, then run the turnover clock. */
    method RunTurnoverTimer()
      requires Valid() && roundStarted
      modifies this`remainingTurnoverTime, this`clock
      ensures Valid() && clock == TurnoverClock
      ensures remainingTurnoverTime == if old(remainingTurnoverTime) == 0 then settings.turnover else old(remainingTurnoverTime)
    {
      if remainingTurnoverTime == 0 {
        remainingTurnoverTime := settings.turnover;
      }
      clock := TurnoverClock;
    }

    /**
      `_advanceRoundState`: one more round, and every category's bucket rebuilt
      from empty, so that `ondeck` is a function of the new round index, the
      rosters and the settings alone.
     */
    method AdvanceRoundState() returns (calls: seq<PortCall>)
      requires Valid()
      modifies this`roundState, this`ondeck
      ensures Valid()
      ensures roundState == old(roundState) + 1
      ensures ondeck == Ondeck(roundState, athletes, settings)
      ensures calls == [SaveState(roundName, roundState, remainingTime)]
    {
      roundState := roundState + 1;
      calls := [SaveState(roundName, roundState, remainingTime)];

      // one empty bucket per category
      ondeck := [[], [], []];
      if roundState < 0 {
        return;
      }

      var totalBoulders := settings.boulders;
      var maxFinalists := 0;
      if settings.finalsMode {
        // largest field size across categories
        var c := 0;
        while c < |athletes|
          invariant 0 <= c <= |athletes|
          invariant maxFinalists == MaxRosterSize(athletes[..c])
        {
          assert athletes[..c + 1][..c] == athletes[..c];
          maxFinalists := Max(maxFinalists, |athletes[c]|);
          c := c + 1;
        }
        assert athletes[..|athletes|] == athletes;
        if maxFinalists == 0 {
          return;
        }
        var climbersOnWall := Min(Max(1, settings.finalsClimbers), totalBoulders);
        var offset := if climbersOnWall >= 1 then Max(1, CeilDiv(maxFinalists, climbersOnWall)) else 1;
        FillFinals(maxFinalists, offset);
      } else {
        FillRoundRobin();
      }
      assert forall c :: 0 <= c < |ondeck| ==> ondeck[c] == Ondeck(roundState, athletes, settings)[c];
    }

    /** The finals loops: per category, the bucket of boulders whose window holds the round. */
    method FillFinals(maxFinalists: nat, offset: int)
      requires Valid() && roundState >= 0 && settings.finalsMode
      requires maxFinalists == MaxRosterSize(athletes) && maxFinalists > 0
      requires offset == FinalsOffset(maxFinalists, settings)
      requires ondeck == [[], [], []]
      modifies this`ondeck
      ensures Valid()
      ensures forall c :: 0 <= c < |ondeck| ==> ondeck[c] == CategoryOndeck(roundState, athletes[c], maxFinalists, settings)
    {
      var c := 0;
      while c < |athletes|
        invariant 0 <= c <= |athletes| && |ondeck| == |athletes|
        invariant forall c' :: 0 <= c' < c ==> ondeck[c'] == CategoryOndeck(roundState, athletes[c'], maxFinalists, settings)
      {
        var bucket := FinalsBucket(roundState, athletes[c], maxFinalists, offset, settings.boulders);
        ondeck := ondeck[c := bucket];
        c := c + 1;
      }
    }

    /** The normal-round loops: per category, boulders 1..boulders. */
    method FillRoundRobin()
      requires Valid() && roundState >= 0 && !settings.finalsMode
      requires ondeck == [[], [], []]
      modifies this`ondeck
      ensures Valid()
      ensures forall c :: 0 <= c < |ondeck| ==> ondeck[c] == RoundRobinSlots(roundState, athletes[c], settings.boulders)
    {
      var c := 0;
      while c < |athletes|
        invariant 0 <= c <= |athletes| && |ondeck| == |athletes|
        invariant forall c' :: 0 <= c' < c ==> ondeck[c'] == RoundRobinSlots(roundState, athletes[c'], settings.boulders)
      {
        var bucket := RoundRobinBucket(roundState, athletes[c], settings.boulders);
        ondeck := ondeck[c := bucket];
        c := c + 1;
      }
    }

    /** One second of the stage interval (`_runTimer`'s callback). */
    method StageTick() returns (calls: seq<PortCall>)
      requires Valid() && clock == StageClock
      modifies this`remainingTime, this`betweenRounds, this`remainingTurnoverTime, this`clock, this`roundState, this`ondeck
      ensures Valid()
      // counting down
      ensures old(remainingTime) > 0 ==>
        && remainingTime == old(remainingTime) - 1 && clock == StageClock
        && betweenRounds == old(betweenRounds) && remainingTurnoverTime == old(remainingTurnoverTime)
        && roundState == old(roundState) && ondeck == old(ondeck)
        && calls == TimerUpdateCalls(remainingTime, betweenRounds, roundState)
      // the observation timer reloads and never turns over
      ensures old(remainingTime) <= 0 && settings.timerMode == ObservationTimerMode ==>
        && remainingTime == ObservationTimerMode && clock == StageClock
        && betweenRounds == old(betweenRounds) && remainingTurnoverTime == old(remainingTurnoverTime)
        && roundState == old(roundState) && ondeck == old(ondeck)
        && calls == []
      // a normal round goes into turnover without advancing
      ensures old(remainingTime) <= 0 && settings.timerMode != ObservationTimerMode && !settings.finalsMode ==>
        && betweenRounds && clock == TurnoverClock && remainingTime == old(remainingTime)
        && remainingTurnoverTime == (if old(remainingTurnoverTime) == 0 then settings.turnover else old(remainingTurnoverTime))
        && roundState == old(roundState) && ondeck == old(ondeck)
        && calls == TimerUpdateCalls(settings.turnover, true, roundState)
      // finals: the next climber is up and the clock stops
      ensures old(remainingTime) <= 0 && settings.timerMode != ObservationTimerMode && settings.finalsMode ==>
        && !betweenRounds && clock == Idle && remainingTime == settings.timerMode
        && remainingTurnoverTime == old(remainingTurnoverTime)
        && roundState == old(roundState) + 1 && ondeck == Ondeck(roundState, athletes, settings)
        && calls == TimerUpdateCalls(remainingTime, false, old(roundState)) + [SaveState(roundName, roundState, remainingTime)]
    {
      if remainingTime > 0 {
        remainingTime := remainingTime - 1;
        calls := TimerUpdateCalls(remainingTime, betweenRounds, roundState);
        return;
      }
      if settings.timerMode == ObservationTimerMode {
        remainingTime := settings.timerMode;
        return [];
      }
      clock := Idle;
      betweenRounds := true;
      if !settings.finalsMode {
        calls := TimerUpdateCalls(settings.turnover, betweenRounds, roundState);
        RunTurnoverTimer();
      } else {
        ClearAllIntervals();
        betweenRounds := false;
        remainingTime := settings.timerMode;
        calls := TimerUpdateCalls(remainingTime, betweenRounds, roundState);
        var saved := AdvanceRoundState();
        calls := calls + saved;
      }
    }

    /** One second of the turnover interval (`_runTurnoverTimer`'s callback). */
    method TurnoverTick() returns (calls: seq<PortCall>)
      requires Valid() && clock == TurnoverClock
      modifies this`remainingTime, this`betweenRounds, this`remainingTurnoverTime, this`startInStageTime, this`clock, this`roundState, this`ondeck
      ensures Valid()
      // counting down
      ensures old(remainingTurnoverTime) > 0 ==>
        && remainingTurnoverTime == old(remainingTurnoverTime) - 1 && clock == TurnoverClock
        && remainingTime == old(remainingTime) && betweenRounds == old(betweenRounds)
        && startInStageTime == old(startInStageTime)
        && roundState == old(roundState) && ondeck == old(ondeck)
        && calls == TimerUpdateCalls(remainingTurnoverTime, betweenRounds, roundState)
      // turnover over: the stage clock runs
      ensures old(remainingTurnoverTime) <= 0 ==>
        && clock == StageClock && !betweenRounds && startInStageTime == 0
        && remainingTurnoverTime == old(remainingTurnoverTime)
      // a stage entered with a preset time keeps the round
      ensures old(remainingTurnoverTime) <= 0 && old(startInStageTime) != 0 ==>
        && remainingTime == old(startInStageTime)
        && roundState == old(roundState) && ondeck == old(ondeck)
        && calls == TimerUpdateCalls(remainingTime, false, roundState)
      // otherwise a full stage of the next round
      ensures old(remainingTurnoverTime) <= 0 && old(startInStageTime) == 0 ==>
        && remainingTime == settings.timerMode
        && roundState == old(roundState) + 1 && ondeck == Ondeck(roundState, athletes, settings)
        && calls == TimerUpdateCalls(remainingTime, false, old(roundState)) + [SaveState(roundName, roundState, remainingTime)]
    {
      if remainingTurnoverTime > 0 {
        remainingTurnoverTime := remainingTurnoverTime - 1;
        calls := TimerUpdateCalls(remainingTurnoverTime, betweenRounds, roundState);
        return;
      }
      calls := EnterStage();
    }

    /**
      The turnover is over: the stage begins, at the preset time in the
      same round when one is pending, otherwise at the full stage length of
      the next round; then the stage clock runs.
     */
    method EnterStage() returns (calls: seq<PortCall>)
      requires Valid() && roundStarted
      modifies this`remainingTime, this`betweenRounds, this`startInStageTime, this`clock, this`roundState, this`ondeck
      ensures Valid()
      ensures clock == StageClock && !betweenRounds && startInStageTime == 0
      ensures old(startInStageTime) != 0 ==>
        && remainingTime == old(startInStageTime)
        && roundState == old(roundState) && ondeck == old(ondeck)
        && calls == TimerUpdateCalls(remainingTime, false, roundState)
      ensures old(startInStageTime) == 0 ==>
        && remainingTime == settings.timerMode
        && roundState == old(roundState) + 1 && ondeck == Ondeck(roundState, athletes, settings)
        && calls == TimerUpdateCalls(remainingTime, false, old(roundState)) + [SaveState(roundName, roundState, remainingTime)]
    {
      clock := Idle;
      betweenRounds := false;
      if startInStageTime != 0 {
        var preset := startInStageTime;
        remainingTime := preset;
        calls := TimerUpdateCalls(preset, false, roundState);
        startInStageTime := 0;
      } else {
        var full := settings.timerMode;
        remainingTime := full;
        calls := TimerUpdateCalls(full, false, roundState);
        var saved := AdvanceRoundState();
        calls := calls + saved;
      }
      RunTimer();
    }

    /**
      `startTimer`. The first start of a normal round runs a 6-second
      turnover; the first start of a finals round advances to the first
      climber. A clock that already runs is left alone; otherwise a paused
      turnover resumes, or the stage runs after the boop cue.
     */
    method StartTimer() returns (calls: seq<PortCall>)
      requires Valid()
      modifies this`roundStarted, this`betweenRounds, this`remainingTurnoverTime, this`nextClimberFlag, this`clock, this`roundState, this`ondeck
      ensures Valid() && roundStarted
      ensures !old(roundStarted) && !settings.finalsMode ==>
        && betweenRounds && remainingTurnoverTime == PreRoundTurnover && clock == TurnoverClock
        && nextClimberFlag == old(nextClimberFlag)
        && roundState == old(roundState) && ondeck == old(ondeck)
        && calls == []
      ensures !old(roundStarted) && settings.finalsMode ==>
        && clock == StageClock && betweenRounds == old(betweenRounds)
        && remainingTurnoverTime == old(remainingTurnoverTime) && !nextClimberFlag
        && roundState == old(roundState) + 1 && ondeck == Ondeck(roundState, athletes, settings)
        && calls == [SaveState(roundName, roundState, remainingTime), PlaySound(BoopCue)]
      ensures old(roundStarted) && old(clock) != Idle ==>
        && clock == old(clock) && betweenRounds == old(betweenRounds)
        && remainingTurnoverTime == old(remainingTurnoverTime) && nextClimberFlag == old(nextClimberFlag)
        && roundState == old(roundState) && ondeck == old(ondeck)
        && calls == []
      ensures old(roundStarted) && old(clock) == Idle && betweenRounds && !settings.finalsMode ==>
        && clock == TurnoverClock && betweenRounds == old(betweenRounds)
        && remainingTurnoverTime == (if old(remainingTurnoverTime) == 0 then settings.turnover else old(remainingTurnoverTime))
        && nextClimberFlag == old(nextClimberFlag)
        && roundState == old(roundState) && ondeck == old(ondeck)
        && calls == []
      ensures old(roundStarted) && old(clock) == Idle && !(old(betweenRounds) && !settings.finalsMode) ==>
        && clock == StageClock && betweenRounds == old(betweenRounds)
        && remainingTurnoverTime == old(remainingTurnoverTime)
        && nextClimberFlag == (old(nextClimberFlag) && !settings.finalsMode)
        && roundState == old(roundState) && ondeck == old(ondeck)
        && calls == [PlaySound(BoopCue)]
    {
      calls := [];
      if !roundStarted {
        roundStarted := true;
        if !settings.finalsMode {
          betweenRounds := true;
          remainingTurnoverTime := PreRoundTurnover;
          RunTurnoverTimer();
          return;
        }
        calls := AdvanceRoundState();
      }
      if clock != Idle {
        // already running
        return;
      }
      if betweenRounds && !settings.finalsMode {
        RunTurnoverTimer();
      } else {
        calls := calls + [PlaySound(BoopCue)];
        if settings.finalsMode && nextClimberFlag {
          nextClimberFlag := false;
        }
        RunTimer();
      }
    }

    /** `pauseTimer`: both clocks stop; the countdowns keep their values. */
    method PauseTimer()
      requires Valid()
      modifies this`clock
      ensures Valid() && clock == Idle
    {
      ClearAllIntervals();
    }

    /** `zeroTimer`: clocks stop and the stage time goes back to the setting. */
    method ZeroTimer() returns (calls: seq<PortCall>)
      requires Valid()
      modifies this`clock, this`remainingTime
      ensures Valid() && clock == Idle && remainingTime == settings.timerMode
      ensures calls == TimerUpdateCalls(remainingTime, betweenRounds, roundState)
    {
      ClearAllIntervals();
      remainingTime := settings.timerMode;
      calls := TimerUpdateCalls(remainingTime, betweenRounds, roundState);
    }

    /** `nextClimber`: reset, mark the round started and the next climber pending, advance one round. */
    method NextClimber() returns (calls: seq<PortCall>)
      requires Valid()
      modifies this`remainingTime, this`betweenRounds, this`roundStarted, this`nextClimberFlag, this`clock, this`roundState, this`ondeck
      ensures Valid()
      ensures clock == Idle && remainingTime == settings.timerMode && !betweenRounds
      ensures roundStarted && nextClimberFlag
      ensures roundState == old(roundState) + 1 && ondeck == Ondeck(roundState, athletes, settings)
      ensures calls == TimerUpdateCalls(remainingTime, false, old(roundState)) + [SaveState(roundName, roundState, remainingTime)]
    {
      calls := Reset();
      roundStarted := true;
      nextClimberFlag := true;
      var saved := AdvanceRoundState();
      calls := calls + saved;
    }

    /** `updateRoundName` */
    method UpdateRoundName(name: string)
      modifies this`roundName
      ensures roundName == name
    {
      roundName := name;
    }

    /** `updateGroupName` for the keys of the three categories; other keys leave them alone. */
    method UpdateGroupName(groupNumber: int, name: string)
      requires Valid()
      modifies this`groups
      ensures Valid()
      ensures 1 <= groupNumber <= NumCategories ==> groups == old(groups)[groupNumber - 1 := name]
      ensures !(1 <= groupNumber <= NumCategories) ==> groups == old(groups)
    {
      if 1 <= groupNumber <= NumCategories {
        groups := groups[groupNumber - 1 := name];
      }
    }

    /**
      `resetRound`: round 0, timer reset; when some category has a group
      name, the transit list for round 0 is built.
     */
    method ResetRound() returns (calls: seq<PortCall>)
      requires Valid()
      modifies this`remainingTime, this`betweenRounds, this`roundStarted, this`nextClimberFlag, this`clock, this`roundState, this`ondeck
      ensures Valid()
      ensures clock == Idle && remainingTime == settings.timerMode
      ensures !betweenRounds && !roundStarted && !nextClimberFlag
      ensures roundState == 0
      ensures AnyGroupNamed(groups) ==> ondeck == Ondeck(0, athletes, settings)
      ensures !AnyGroupNamed(groups) ==> ondeck == old(ondeck)
      ensures calls == TimerUpdateCalls(remainingTime, false, 0) + (if AnyGroupNamed(groups) then [SaveState(roundName, 0, remainingTime)] else [])
    {
      roundState := 0;
      calls := Reset();
      var named := HasGroupName();
      if named {
        roundState := -1;
        var saved := AdvanceRoundState();
        calls := calls + saved;
      }
    }

    /** The category loop of `resetRound`: stops at the first category with a group name. */
    method HasGroupName() returns (named: bool)
      ensures named <==> AnyGroupNamed(groups)
    {
      var c := 0;
      while c < |groups|
        invariant 0 <= c <= |groups|
        invariant forall c' :: 0 <= c' < c ==> groups[c'] == ""
      {
        if |groups[c]| > 0 {
          return true;
        }
        c := c + 1;
      }
      return false;
    }

    /** Looks the athlete id up in category order, as the loop of `_selectRoundState` does. */
    method FindAthlete(id: string) returns (found: Option<Placement>)
      ensures found == Locate(athletes, id)
    {
      var c := 0;
      while c < |athletes|
        invariant 0 <= c <= |athletes|
        invariant Locate(athletes, id) == LocateFrom(athletes, id, c)
      {
        var place := FindIndex(athletes[c], id);
        if place.Some? {
          return Some(Placement(c, place.value));
        }
        c := c + 1;
      }
      return None;
    }

    /**
      `_selectRoundState`, entered at round 0: a negative stage sets the
      round to `stage - 1` directly; otherwise the round advances `JumpSteps`
      times, and not at all when the athlete id is unknown.
     */
    method SelectRoundState(data: RoundChange) returns (calls: seq<PortCall>)
      requires Valid() && roundState == 0
      modifies this`roundState, this`ondeck
      ensures Valid()
      ensures JumpOutcome(data, athletes, settings, old(ondeck), roundState, ondeck)
      ensures calls == SaveCalls(roundName, if data.stage < 0 then data.stage - 2 else 0, roundState, remainingTime)
    {
      calls := [];
      var steps := 0;
      if data.stage != 0 {
        if data.stage < 0 {
          roundState := data.stage - 2;
          calls := AdvanceRoundState();
          return;
        }
        steps := data.stage - 1;
      } else {
        var found := FindAthlete(data.athleteId);
        if found.None? {
          return;
        }
        var p := found.value;
        var multiplier := if settings.finalsMode then |athletes[p.category]| else 2;
        steps := p.index + multiplier * (data.boulder - 1);
      }
      if data.time != 0 {
        steps := steps + 1;
      }
      assert JumpSteps(data, athletes, settings) == Some(steps);
      calls := AdvanceSteps(steps);
    }

    /** The stepping loop of `_selectRoundState`: `steps` advances, none when `steps` is not positive. */
    method AdvanceSteps(steps: int) returns (calls: seq<PortCall>)
      requires Valid()
      modifies this`roundState, this`ondeck
      ensures Valid()
      ensures roundState == old(roundState) + Max(0, steps)
      ensures steps >= 1 ==> ondeck == Ondeck(roundState, athletes, settings)
      ensures steps < 1 ==> ondeck == old(ondeck)
      ensures calls == SaveCalls(roundName, old(roundState), roundState, remainingTime)
    {
      calls := [];
      var step := 0;
      while step < steps
        invariant 0 <= step <= Max(0, steps)
        invariant Valid()
        invariant roundState == old(roundState) + step
        invariant step >= 1 ==> ondeck == Ondeck(roundState, athletes, settings)
        invariant step == 0 ==> ondeck == old(ondeck)
        invariant calls == SaveCalls(roundName, old(roundState), roundState, remainingTime)
      {
        var saved := AdvanceRoundState();
        calls := calls + saved;
        step := step + 1;
      }
    }

    /**
      The preset-time branch of `changeRoundState`: the stage starts at
      `time`, which is also kept for the next turnover to pick up.
     */
    method PresetStageTime(time: int) returns (calls: seq<PortCall>)
      requires Valid() && !roundStarted
      modifies this`remainingTime, this`startInStageTime, this`roundStarted, this`betweenRounds
      ensures Valid()
      ensures remainingTime == time && startInStageTime == time && !roundStarted && !betweenRounds
      ensures calls == TimerUpdateCalls(time, false, roundState)
    {
      remainingTime := time;
      startInStageTime := time;
      roundStarted := false;
      betweenRounds := false;
      calls := TimerUpdateCalls(remainingTime, betweenRounds, roundState);
    }

    /**
      The first half of `changeRoundState`: reset, round 0, and a preset
      stage time, if given, kept for the next turnover to pick up.
     */
    method PrepareJump(time: int) returns (calls: seq<PortCall>)
      requires Valid()
      modifies this`remainingTime, this`betweenRounds, this`roundStarted, this`nextClimberFlag, this`clock, this`roundState, this`startInStageTime
      ensures Valid() && roundState == 0
      ensures clock == Idle && !betweenRounds && !roundStarted && !nextClimberFlag
      ensures remainingTime == (if time != 0 then time else settings.timerMode)
      ensures startInStageTime == (if time != 0 then time else old(startInStageTime))
      ensures calls == TimerUpdateCalls(settings.timerMode, false, old(roundState))
                       + (if time != 0 then TimerUpdateCalls(time, false, 0) else [])
    {
      calls := Reset();
      roundState := 0;
      var preset := [];
      if time != 0 {
        preset := PresetStageTime(time);
      }
      calls := calls + preset;
    }

    /**
      `changeRoundState`: reset to round 0, optionally preset the stage time
      (kept in `startInStageTime` for the next turnover to pick up), then jump.
      In a normal round without a preset time, jumping to an athlete and a
      boulder puts that athlete on that boulder's entry.
     */
    method ChangeRoundState(data: RoundChange) returns (calls: seq<PortCall>)
      requires Valid()
      modifies this`remainingTime, this`betweenRounds, this`roundStarted, this`nextClimberFlag, this`clock, this`roundState, this`startInStageTime, this`ondeck
      ensures Valid()
      ensures clock == Idle && !betweenRounds && !roundStarted && !nextClimberFlag
      ensures remainingTime == (if data.time != 0 then data.time else settings.timerMode)
      ensures startInStageTime == (if data.time != 0 then data.time else old(startInStageTime))
      ensures JumpOutcome(data, athletes, settings, old(ondeck), roundState, ondeck)
      ensures JumpsToAthlete(data, athletes, settings) ==>
        var p := Locate(athletes, data.athleteId).value;
        ondeck[p.category][data.boulder - 1] == Slot(data.boulder, Some(athletes[p.category][p.index]))
      ensures calls ==
        TimerUpdateCalls(settings.timerMode, false, old(roundState))
        + (if data.time != 0 then TimerUpdateCalls(data.time, false, 0) else [])
        + SaveCalls(roundName, if data.stage < 0 then data.stage - 2 else 0, roundState, remainingTime)
    {
      ghost var before := ondeck;
      var prepared := PrepareJump(data.time);
      var jumped := SelectRoundState(data);
      calls := prepared + jumped;
      assert JumpOutcome(data, athletes, settings, before, roundState, ondeck);
      if JumpsToAthlete(data, athletes, settings) {
        JumpLandsOnAthlete(data, athletes, settings, before, roundState, ondeck);
      }
    }

    /**
      `updateSettings`: a new non-zero stage length reloads the stage time;
      then every key of the patch replaces the setting.
     */
    method UpdateSettings(patch: SettingsPatch) returns (calls: seq<PortCall>)
      requires Valid()
      modifies this`settings, this`remainingTime
      ensures Valid()
      ensures settings == Merge(old(settings), patch)
      ensures ReloadsStage(old(settings), patch) ==>
        remainingTime == patch.timerMode.value && calls == TimerUpdateCalls(remainingTime, betweenRounds, roundState)
      ensures !ReloadsStage(old(settings), patch) ==> remainingTime == old(remainingTime) && calls == []
    {
      calls := [];
      if ReloadsStage(settings, patch) {
        remainingTime := patch.timerMode.value;
        calls := TimerUpdateCalls(remainingTime, betweenRounds, roundState);
      }
      settings := Merge(settings, patch);
    }

    /**
      `handleAthleteUpload`: a delete request always clears; otherwise an
      upload is refused once the round has started, when the list is not an
      array of athletes with all three fields, or when the key is not a
      category, and replaces that category's roster and group name when it
      is accepted.
     */
    method HandleAthleteUpload(upload: Upload) returns (reply: UploadReply)
      requires Valid()
      modifies this`athletes, this`groups, this`ondeck
      ensures Valid()
      ensures upload.deleteAll ==>
        && reply == Stored("Athlete data cleared")
        && athletes == [[], [], []] && groups == ["", "", ""] && ondeck == [[], [], []]
      ensures !upload.deleteAll && roundStarted ==>
        reply == Rejected("Round started: first 'Reset Entire Round'")
      ensures !upload.deleteAll && !roundStarted && !(upload.athletes.Some? && AllHaveFields(upload.athletes.value)) ==>
        reply == Rejected("Invalid athlete data format")
      ensures !upload.deleteAll && !roundStarted && upload.athletes.Some? && AllHaveFields(upload.athletes.value)
              && !(1 <= upload.groupNumber <= NumCategories) ==>
        reply == Rejected("Invalid category")
      ensures !upload.deleteAll && !roundStarted && upload.athletes.Some? && AllHaveFields(upload.athletes.value)
              && 1 <= upload.groupNumber <= NumCategories ==>
        && reply == Stored("Athlete data stored successfully")
        && athletes == old(athletes)[upload.groupNumber - 1 := upload.athletes.value]
        && groups == old(groups)[upload.groupNumber - 1 := upload.groupName]
        && ondeck == old(ondeck)
      ensures reply.Rejected? ==> athletes == old(athletes) && groups == old(groups) && ondeck == old(ondeck)
    {
      if upload.deleteAll {
        ClearData();
        return Stored("Athlete data cleared");
      }
      if roundStarted {
        return Rejected("Round started: first 'Reset Entire Round'");
      }
      if upload.athletes.None? || !AllHaveFields(upload.athletes.value) {
        return Rejected("Invalid athlete data format");
      }
      if !(1 <= upload.groupNumber <= NumCategories) {
        return Rejected("Invalid category");
      }
      athletes := athletes[upload.groupNumber - 1 := upload.athletes.value];
      groups := groups[upload.groupNumber - 1 := upload.groupName];
      return Stored("Athlete data stored successfully");
    }

    /** `shutdown`: both clocks stop. */
    method Shutdown()
      requires Valid()
      modifies this`clock
      ensures Valid() && clock == Idle
    {
      ClearAllIntervals();
    }

    /**
      The completion callback of a status write: the latch follows the
      outcome, and a failure is logged only when the latch was down.
     */
    method StatusWriteCompleted(failed: bool) returns (logged: bool)
      modifies this`writeErrorFlag
      ensures (writeErrorFlag, logged) == LatchStep(old(writeErrorFlag), failed)
      ensures writeErrorFlag == failed
      ensures logged <==> failed && !old(writeErrorFlag)
    {
      var step := LatchStep(writeErrorFlag, failed);
      writeErrorFlag, logged := step.0, step.1;
    }
  }
}
