/**
 * The Weekly page: a summary of the last seven pulses, the weekly best move chosen by a
 * threshold cascade over their averages, three proposed habits (one per axis) that the
 * user can edit, and the offset from a weekday back to that week's Monday.
 */
module Weekly {
  import opened Wrappers
  import opened Ratings
  import opened Sequences

  // ---------------------------------------------------------------------------
  // The seven-day summary

  datatype WeekStats = WeekStats(avgEnergy: real, avgCalm: real, avgMood: real, avgFocus: real, countDays: nat)

  const WindowDays := 7

  /** The summary of `load(...).slice(0, 7)`: the mean of each rating and the number of days. */
  function Summarize(stored: seq<Pulse>): (s: WeekStats)
    ensures s.countDays == Min(WindowDays, |stored|)
    ensures s.countDays <= WindowDays
    ensures stored == [] ==> s == WeekStats(0.0, 0.0, 0.0, 0.0, 0)
  {
    var pulses := stored[..Min(WindowDays, |stored|)];
    WeekStats(Mean(Energies(pulses)), Mean(Calms(pulses)), Mean(Moods(pulses)), Mean(Focuses(pulses)),
              |pulses|)
  }

  /** Each average is the mean of that rating over the first seven pulses. */
  lemma SummaryAverages(stored: seq<Pulse>)
    ensures var s := Summarize(stored);
            var week := stored[..s.countDays];
            && s.avgEnergy == Mean(Energies(week)) && s.avgCalm == Mean(Calms(week))
            && s.avgMood == Mean(Moods(week)) && s.avgFocus == Mean(Focuses(week))
  {
  }

  /** Over valid pulses every average of a non-empty week lies on the 1..5 scale. */
  lemma SummaryWithinScale(stored: seq<Pulse>)
    requires stored != [] && forall k :: 0 <= k < |stored| ==> ValidPulse(stored[k])
    ensures var s := Summarize(stored);
            && 1.0 <= s.avgEnergy <= 5.0 && 1.0 <= s.avgCalm <= 5.0
            && 1.0 <= s.avgMood <= 5.0 && 1.0 <= s.avgFocus <= 5.0
  {
    var pulses := stored[..Min(WindowDays, |stored|)];
    MeanWithinScale(Energies(pulses));
    MeanWithinScale(Calms(pulses));
    MeanWithinScale(Moods(pulses));
    MeanWithinScale(Focuses(pulses));
  }

  /** Only the first seven stored pulses count: what lies beyond them changes nothing. */
  lemma SummaryIgnoresOlderPulses(week: seq<Pulse>, older1: seq<Pulse>, older2: seq<Pulse>)
    requires |week| == WindowDays
    ensures Summarize(week + older1) == Summarize(week + older2)
  {
    assert (week + older1)[..WindowDays] == week == (week + older2)[..WindowDays];
  }

  // ---------------------------------------------------------------------------
  // The weekly best move

  const ReduceLoad := "Reduce load: one daily 10-minute reset + protect sleep."
  const RecoverEnergy := "Recover energy: simplify commitments + daily daylight + earlier bedtime."
  const BuildWeek := "Build week: schedule 3 focused sprints (25 min) on your highest-value task."
  const MoodLift := "Mood lift: add 2 connection moments + one fun micro-activity midweek."
  const ConsistencyWeek := "Consistency week: keep habits small and show up daily."

  /** `suggestWeeklyBestMove`: first match wins. */
  function SuggestWeeklyBestMove(s: WeekStats): (r: string)
    ensures r in [ReduceLoad, RecoverEnergy, BuildWeek, MoodLift, ConsistencyWeek]
  {
    if s.avgCalm <= 2.6 then ReduceLoad
    else if s.avgEnergy <= 2.6 then RecoverEnergy
    else if s.avgFocus >= 3.7 && s.avgCalm >= 3.0 then BuildWeek
    else if s.avgMood <= 2.6 then MoodLift
    else ConsistencyWeek
  }

  /**
   * The ranking of the weekly rules, one rule per line: each move is chosen exactly when its
   * own rule holds and no rule ranked above it does.
   */
  lemma WeeklyRuleOrder(s: WeekStats)
    ensures SuggestWeeklyBestMove(s) == ReduceLoad <==> s.avgCalm <= 2.6
    ensures SuggestWeeklyBestMove(s) == RecoverEnergy <==> s.avgCalm > 2.6 && s.avgEnergy <= 2.6
    ensures SuggestWeeklyBestMove(s) == BuildWeek <==>
              s.avgCalm > 2.6 && s.avgEnergy > 2.6 && s.avgFocus >= 3.7 && s.avgCalm >= 3.0
    ensures SuggestWeeklyBestMove(s) == MoodLift <==>
              s.avgCalm > 2.6 && s.avgEnergy > 2.6 && !(s.avgFocus >= 3.7 && s.avgCalm >= 3.0)
              && s.avgMood <= 2.6
    ensures SuggestWeeklyBestMove(s) == ConsistencyWeek <==>
              s.avgCalm > 2.6 && s.avgEnergy > 2.6 && !(s.avgFocus >= 3.7 && s.avgCalm >= 3.0)
              && s.avgMood > 2.6
  {
  }

  /** The empty week (all averages 0) asks to reduce load. */
  lemma EmptyWeekReducesLoad()
    ensures SuggestWeeklyBestMove(Summarize([])) == ReduceLoad
  {
  }

  /** A threshold is inclusive and the mean is exact: calm ratings 3, 3, 2, 3, 2 average exactly 2.6. */
  lemma BoundaryWeek()
    ensures Mean([3, 3, 2, 3, 2]) == 2.6
    ensures SuggestWeeklyBestMove(WeekStats(4.0, Mean([3, 3, 2, 3, 2]), 4.0, 4.0, 5)) == ReduceLoad
  {
    assert [3, 3, 2, 3, 2][..4] == [3, 3, 2, 3];
    assert [3, 3, 2, 3][..3] == [3, 3, 2];
    assert [3, 3, 2][..2] == [3, 3];
    assert [3, 3][..1] == [3];
    assert [3][..0] == [];
    assert Sum([3, 3, 2, 3, 2]) == 13;
  }

  // ---------------------------------------------------------------------------
  // Proposed habits

  const ResetDaily := "10-minute reset daily (breathing + stretch/walk)"
  const Decompress := "5-minute decompression after work (no phone)"
  const DaylightWater := "Daylight + water within 30 minutes of waking"
  const LunchWalk := "15-minute movement (walk) after lunch"
  const FocusSprint := "One 25-minute deep work sprint (timer)"
  const ConnectionMessage := "1 small connection message daily"
  const PlanTomorrow := "2-minute plan for tomorrow (evening)"

  /** The calm/stress habit: it sees only the calm average. */
  function CalmHabit(avgCalm: real): string {
    if avgCalm <= 3.0 then ResetDaily else Decompress
  }

  /** The energy habit: it sees only the energy average. */
  function EnergyHabit(avgEnergy: real): string {
    if avgEnergy <= 3.0 then DaylightWater else LunchWalk
  }

  /** The focus-or-mood habit: the sprint on a focused week, otherwise chosen by mood. */
  function FocusOrMoodHabit(avgFocus: real, avgMood: real): string {
    if avgFocus >= 3.4 then FocusSprint
    else if avgMood <= 3.0 then ConnectionMessage
    else PlanTomorrow
  }

  /** The three proposals for a week: one per axis, in the order calm, energy, focus-or-mood. */
  function Proposals(s: WeekStats): seq<string> {
    [CalmHabit(s.avgCalm), EnergyHabit(s.avgEnergy), FocusOrMoodHabit(s.avgFocus, s.avgMood)]
  }

  /** `proposeHabits`: one push per axis into a local list, then `slice(0, 3)`. */
  method ProposeHabits(s: WeekStats) returns (habits: seq<string>)
    ensures |habits| == 3
    ensures habits == Proposals(s)
  {
    habits := [];
    if s.avgCalm <= 3.0 {
      habits := habits + [ResetDaily];
    } else {
      habits := habits + [Decompress];
    }
    if s.avgEnergy <= 3.0 {
      habits := habits + [DaylightWater];
    } else {
      habits := habits + [LunchWalk];
    }
    if s.avgFocus >= 3.4 {
      habits := habits + [FocusSprint];
    } else if s.avgMood <= 3.0 {
      habits := habits + [ConnectionMessage];
    } else {
      habits := habits + [PlanTomorrow];
    }
    habits := habits[..3];
  }

  /** The third habit is the sprint exactly on a week whose focus average reaches 3.4, whatever the mood. */
  lemma ThirdHabitIsSprintIff(avgFocus: real, avgMood: real)
    ensures FocusOrMoodHabit(avgFocus, avgMood) == FocusSprint <==> avgFocus >= 3.4
    ensures avgFocus < 3.4 ==>
              FocusOrMoodHabit(avgFocus, avgMood) == if avgMood <= 3.0 then ConnectionMessage else PlanTomorrow
  {
  }

  /** The three proposals come from three disjoint pools, so they are always three different habits. */
  lemma ProposalsDistinct(s: WeekStats)
    ensures var c, e, f := CalmHabit(s.avgCalm), EnergyHabit(s.avgEnergy), FocusOrMoodHabit(s.avgFocus, s.avgMood);
            c != e && e != f && c != f
  {
  }

  // ---------------------------------------------------------------------------
  // Editable list of habits

  /** `prev.map((h, i) => i === idx ? value : h)`. */
  function ReplaceAt(s: seq<string>, idx: int, value: string): (r: seq<string>)
    ensures |r| == |s|
    ensures forall i :: 0 <= i < |s| && i != idx ==> r[i] == s[i]
    ensures 0 <= idx < |s| ==> r[idx] == value
  {
    seq(|s|, i requires 0 <= i < |s| => if i == idx then value else s[i])
  }

  /** Writing back the old text undoes an edit. */
  lemma ReplaceAtUndo(s: seq<string>, idx: int, value: string)
    requires 0 <= idx < |s|
    ensures ReplaceAt(ReplaceAt(s, idx, value), idx, s[idx]) == s
  {
  }

  /** `prev.filter((_, i) => i !== idx)`: position `idx`, when there is one, is dropped. */
  function RemoveAt(s: seq<string>, idx: int): (r: seq<string>)
    ensures |r| == if 0 <= idx < |s| then |s| - 1 else |s|
    ensures forall i :: 0 <= i < |r| && i < idx ==> r[i] == s[i]
    ensures 0 <= idx ==> forall i :: idx <= i < |r| ==> r[i] == s[i + 1]
    ensures !(0 <= idx < |s|) ==> r == s
  {
    if 0 <= idx < |s| then s[..idx] + s[idx + 1..] else s
  }

  /** The rest keep their order. */
  lemma RemoveAtKeepsOrder(s: seq<string>, idx: int)
    ensures Subsequence(RemoveAt(s, idx), s)
  {
    if 0 <= idx < |s| {
      PrefixIsSubsequence(s, idx);
      RemoveAtIsSubsequence(s, idx);
    } else {
      PrefixIsSubsequence(s, |s|);
      assert s[..|s|] == s;
    }
  }

  lemma {:induction false} RemoveAtIsSubsequence(s: seq<string>, idx: nat)
    requires idx < |s|
    ensures Subsequence(s[..idx] + s[idx + 1..], s)
  {
    if idx == 0 {
      assert s[..0] + s[1..] == s[1..];
      PrefixIsSubsequence(s[1..], |s| - 1);
      assert s[1..][..|s| - 1] == s[1..];
      SubsequenceOfTail(s[1..], s);
    } else {
      RemoveAtIsSubsequence(s[1..], idx - 1);
      var r := s[..idx] + s[idx + 1..];
      assert r[0] == s[0];
      assert r[1..] == s[1..][..idx - 1] + s[1..][idx..];
    }
  }

  /** "+ Add habit" followed by removing that new last row gives the list back. */
  lemma AddThenRemoveLast(s: seq<string>)
    ensures RemoveAt(s + [""], |s|) == s
  {
  }

  // ---------------------------------------------------------------------------
  // Monday of this week

  /** Moving `offset` days from weekday `day` (0 = Sunday) reaches a Monday. */
  predicate LandsOnMonday(day: int, offset: int) {
    (day + offset) % 7 == 1
  }

  /**
   * The day offset of `mondayOfThisWeek` for `getDay()` (0 = Sunday): it lands on a Monday
   * and is the nearest such offset that is not in the future.
   */
  function MondayOffset(day: int): (diff: int)
    requires 0 <= day <= 6
    ensures -6 <= diff <= 0
    ensures LandsOnMonday(day, diff)
    ensures forall k :: diff < k <= 0 ==> !LandsOnMonday(day, k)
  {
    if day == 0 then -6 else 1 - day
  }

  // ---------------------------------------------------------------------------
  // The page state

  datatype WeeklyPlan = WeeklyPlan(
    weekStart: string,
    createdAt: string,
    summary: WeekStats,
    suggestedBestMove: string,
    suggestedHabits: Option<seq<string>>,
    confirmed: bool)

  /**
   * The Weekly page: the first seven stored pulses, the editable habits, the confirmation
   * flag, the plan shown and the plan in storage.
   */
  class WeeklyPage {
    const pulses: seq<Pulse>
    var habits: seq<string>
    var confirmed: bool
    var savedPlan: Option<WeeklyPlan>
    var storedPlan: Option<WeeklyPlan>

    /** `pulses` is `load(PULSES_KEY, []).slice(0, 7)`. */
    constructor (storedPulses: seq<Pulse>, storage: Option<WeeklyPlan>)
      ensures pulses == storedPulses[..Min(WindowDays, |storedPulses|)]
      ensures habits == [] && !confirmed && savedPlan == None && storedPlan == storage
    {
      pulses := storedPulses[..Min(WindowDays, |storedPulses|)];
      habits := [];
      confirmed := false;
      savedPlan := None;
      storedPlan := storage;
    }

    /**
     * The effect: start from the week's proposals, or from this week's stored plan (and
     * its habits, when it has them) when there is one.
     */
    method LoadPlan(weekStart: string)
      modifies this`habits, this`confirmed, this`savedPlan
      ensures storedPlan.Some? && storedPlan.value.weekStart == weekStart ==>
                && savedPlan == storedPlan && confirmed == storedPlan.value.confirmed
                && habits == storedPlan.value.suggestedHabits.GetOr(Proposals(Summarize(pulses)))
      ensures !(storedPlan.Some? && storedPlan.value.weekStart == weekStart) ==>
                savedPlan == old(savedPlan) && confirmed == old(confirmed) && habits == Proposals(Summarize(pulses))
    {
      var defaultHabits := ProposeHabits(Summarize(pulses));
      habits := defaultHabits;
      if storedPlan.Some? && storedPlan.value.weekStart == weekStart {
        savedPlan := storedPlan;
        confirmed := storedPlan.value.confirmed;
        habits := storedPlan.value.suggestedHabits.GetOr(defaultHabits);
      }
    }

    /** Confirm: store a confirmed plan with the week's numbers, its best move and the current habits. */
    method Confirm(weekStart: string, createdAt: string)
      modifies this`confirmed, this`savedPlan, this`storedPlan
      ensures storedPlan == Some(WeeklyPlan(weekStart, createdAt, Summarize(pulses), SuggestWeeklyBestMove(Summarize(pulses)),
                                            Some(habits), true))
      ensures savedPlan == storedPlan && confirmed
    {
      var stats := Summarize(pulses);
      var plan := WeeklyPlan(weekStart, createdAt, stats, SuggestWeeklyBestMove(stats), Some(habits), true);
      storedPlan := Some(plan);
      savedPlan := Some(plan);
      confirmed := true;
    }

    /** Editing the text of one row. */
    method UpdateHabit(idx: int, value: string)
      modifies this`habits
      ensures habits == ReplaceAt(old(habits), idx, value)
    {
      habits := ReplaceAt(habits, idx, value);
    }

    /** "+ Add habit": a new empty row at the end. */
    method AddHabit()
      modifies this`habits
      ensures habits == old(habits) + [""]
    {
      habits := habits + [""];
    }

    /** "Remove" on one row. */
    method RemoveHabit(idx: int)
      modifies this`habits
      ensures habits == RemoveAt(old(habits), idx)
    {
      habits := RemoveAt(habits, idx);
    }
  }
}
