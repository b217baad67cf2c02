/**
 * The Today page: the 1..5 rating helpers, the rule-based daily coach, the one-time
 * migration of legacy "stress" records into the calm-based v2 schema, and the
 * pulse history that a save upserts by date and caps at 30 entries.
 */
module Today {
  import opened Wrappers
  import opened Ratings
  import opened Sequences

  // ---------------------------------------------------------------------------
  // Rating helpers

  /** `Math.max(1, Math.min(5, n))`: pulls a rating onto the 1..5 scale. */
  function Clamp15(n: int): (r: int)
    ensures InScale(r)
    ensures InScale(n) ==> r == n
    ensures n < 1 ==> r == 1
    ensures n > 5 ==> r == 5
  {
    if n < 1 then 1 else if n > 5 then 5 else n
  }

  const Labels: seq<string> := ["Very low", "Low", "Medium", "High", "Very high"]

  /** The word shown beside a slider; the clamp makes every rating index a label. */
  function Label5(n: int): (r: string)
    ensures r in Labels
    ensures InScale(n) ==> r == Labels[n - 1]
    ensures n < 1 ==> r == "Very low"
    ensures n > 5 ==> r == "Very high"
  {
    Labels[Clamp15(n) - 1]
  }

  // ---------------------------------------------------------------------------
  // The daily coach

  /** The five fixed suggestion templates. */
  datatype Template = ResetLoad | RecoverEnergy | DeepWork | LiftMood | MaintainMomentum

  /** The rationale sentence, kept as its template and the ratings it interpolates. */
  datatype Why =
    | CalmIsLow(calm: int)
    | EnergyIsLow(energy: int)
    | BuildDay(focus: int, calm: int)
    | MoodIsLow(mood: int)
    | Baseline(energy: int, calm: int, focus: int)

  datatype CoachSuggestion = CoachSuggestion(
    title: string,
    bestMove: string,
    microSteps: (string, string),
    why: Why,
    tags: seq<string>)

  /** The text of each template, with the pulse's ratings in its rationale. */
  function Render(t: Template, p: Pulse): CoachSuggestion {
    match t
    case ResetLoad =>
      CoachSuggestion("Reset and lower load",
        "Lower stress load: do one 10-minute reset.",
        ("2 min breathing (box breathing)", "8 min walk or stretch"),
        CalmIsLow(p.calm), ["recovery", "stress"])
    case RecoverEnergy =>
      CoachSuggestion("Recover energy",
        "Recover energy: protect your next 3 hours.",
        ("Drink water + daylight 3 min", "Pick one task only (15 min start)"),
        EnergyIsLow(p.energy), ["recovery", "energy"])
    case DeepWork =>
      CoachSuggestion("Deep work sprint",
        "Use momentum: one focused 25-minute sprint.",
        ("Write the next tiny step (30 sec)", "25 min deep work (timer)"),
        BuildDay(p.focus, p.calm), ["focus", "execution"])
    case LiftMood =>
      CoachSuggestion("Lift mood gently",
        "Lift mood: do a small positive connection.",
        ("Send 1 message to someone", "5 min music + tidy one surface"),
        MoodIsLow(p.mood), ["mood", "connection"])
    case MaintainMomentum =>
      CoachSuggestion("Maintain momentum",
        "Keep it simple: one small action that moves you forward.",
        ("Pick 1 habit for today (2 min)", "Do 10 minutes of it now"),
        Baseline(p.energy, p.calm, p.focus), ["consistency"])
  }

  /** Each template's rule, read on its own, without the rules ranked above it. */
  predicate Fires(t: Template, p: Pulse) {
    match t
    case ResetLoad => p.calm <= 2
    case RecoverEnergy => p.energy <= 2
    case DeepWork => p.focus >= 4 && p.energy >= 3 && p.calm >= 3
    case LiftMood => p.mood <= 2
    case MaintainMomentum => true
  }

  /** The ranked rule list: the order is the tie-break policy. */
  const RuleOrder: seq<Template> := [ResetLoad, RecoverEnergy, DeepWork, LiftMood, MaintainMomentum]

  /** The first rule of `rules` that fires on `p`, if any. */
  function FirstFiring(rules: seq<Template>, p: Pulse): (r: Option<Template>)
    ensures r.None? <==> forall k :: 0 <= k < |rules| ==> !Fires(rules[k], p)
    ensures r.Some? ==> exists k :: 0 <= k < |rules| && rules[k] == r.value && Fires(rules[k], p)
                                    && forall j :: 0 <= j < k ==> !Fires(rules[j], p)
  {
    if rules == [] then None
    else if Fires(rules[0], p) then Some(rules[0])
    else
      var r := FirstFiring(rules[1..], p);
      assert forall j :: 1 <= j < |rules| ==> rules[j] == rules[1..][j - 1];
      r
  }

  /** The last rule always fires, so the ranked list always yields a template: the first whose rule fires. */
  lemma {:induction false} RuleOrderSelects(p: Pulse)
    ensures FirstFiring(RuleOrder, p) == Some(
              if p.calm <= 2 then ResetLoad
              else if p.energy <= 2 then RecoverEnergy
              else if p.focus >= 4 && p.energy >= 3 && p.calm >= 3 then DeepWork
              else if p.mood <= 2 then LiftMood
              else MaintainMomentum)
  {
    var r1: seq<Template> := [RecoverEnergy, DeepWork, LiftMood, MaintainMomentum];
    var r2: seq<Template> := [DeepWork, LiftMood, MaintainMomentum];
    var r3: seq<Template> := [LiftMood, MaintainMomentum];
    var r4: seq<Template> := [MaintainMomentum];
    assert RuleOrder[1..] == r1 && r1[1..] == r2 && r2[1..] == r3 && r3[1..] == r4;
    assert FirstFiring(r4, p) == Some(MaintainMomentum);
    assert FirstFiring(r3, p) == if p.mood <= 2 then Some(LiftMood) else FirstFiring(r4, p);
    assert FirstFiring(r2, p) == if Fires(DeepWork, p) then Some(DeepWork) else FirstFiring(r3, p);
    assert FirstFiring(r1, p) == if p.energy <= 2 then Some(RecoverEnergy) else FirstFiring(r2, p);
    assert FirstFiring(RuleOrder, p) == if p.calm <= 2 then Some(ResetLoad) else FirstFiring(r1, p);
  }

  /**
   * `suggestFromPulse`: an ordered if-cascade over the current pulse. The page also
   * averages the last seven pulses of `recent`, but those averages take no part in the choice.
   */
  function SuggestFromPulse(p: Pulse, recent: seq<Pulse>): (r: CoachSuggestion)
    ensures FirstFiring(RuleOrder, p).Some? && r == Render(FirstFiring(RuleOrder, p).value, p)
  {
    RuleOrderSelects(p);
    if p.calm <= 2 then Render(ResetLoad, p)
    else if p.energy <= 2 then Render(RecoverEnergy, p)
    else if p.focus >= 4 && p.energy >= 3 && p.calm >= 3 then Render(DeepWork, p)
    else if p.mood <= 2 then Render(LiftMood, p)
    else Render(MaintainMomentum, p)
  }

  /** Low calm wins over everything else. */
  lemma CalmLowResets(p: Pulse, recent: seq<Pulse>)
    requires p.calm <= 2
    ensures SuggestFromPulse(p, recent).title == "Reset and lower load"
  {
  }

  /** With calm above 2, low energy wins over focus and mood. */
  lemma EnergyLowRecovers(p: Pulse, recent: seq<Pulse>)
    requires p.calm > 2 && p.energy <= 2
    ensures SuggestFromPulse(p, recent).title == "Recover energy"
  {
  }

  /** The sprint rule is ranked above the mood rule: a low mood does not stop a sprint. */
  lemma SprintBeforeMood(p: Pulse, recent: seq<Pulse>)
    requires p.calm >= 3 && p.energy >= 3 && p.focus >= 4
    ensures SuggestFromPulse(p, recent).title == "Deep work sprint"
  {
  }

  /** When none of the first three rules fires, mood alone decides. */
  lemma MoodDecidesTheRest(p: Pulse, recent: seq<Pulse>)
    requires p.calm > 2 && p.energy > 2 && !(p.focus >= 4 && p.energy >= 3 && p.calm >= 3)
    ensures SuggestFromPulse(p, recent).title ==
            if p.mood <= 2 then "Lift mood gently" else "Maintain momentum"
  {
  }

  /** The history argument never changes the suggestion. */
  lemma SuggestionIgnoresHistory(p: Pulse, recent1: seq<Pulse>, recent2: seq<Pulse>)
    ensures SuggestFromPulse(p, recent1) == SuggestFromPulse(p, recent2)
  {
  }

  /** The five templates have five different titles, so the title names the template. */
  lemma TitleIdentifiesTemplate(t1: Template, p1: Pulse, t2: Template, p2: Pulse)
    requires Render(t1, p1).title == Render(t2, p2).title
    ensures t1 == t2
  {
  }

  /** Two worked cases: a build day, and a flat baseline. */
  lemma SuggestExamples(recent: seq<Pulse>)
    ensures SuggestFromPulse(Pulse("2026-01-05", 4, 4, 3, 5), recent).title == "Deep work sprint"
    ensures SuggestFromPulse(Pulse("2026-01-05", 3, 3, 3, 3), recent).title == "Maintain momentum"
  {
  }

  // ---------------------------------------------------------------------------
  // Legacy migration

  /** A field of a stored legacy record, as JSON may hold it. */
  datatype Field = Missing | Num(n: int) | NonNumeric

  /** A record under the legacy key: `stress` where v2 has `calm`, with the opposite polarity. */
  datatype OldPulse = OldPulse(date: string, energy: Field, stress: Field, mood: Field, focus: Field)

  /** What `load` returns for a key: nothing usable, something that is not an array, or an array. */
  datatype Stored<T> = Absent | NotArray | Arr(items: seq<T>)

  /** `typeof f === "number" ? f : 3`. */
  function NumberOr3(f: Field): (r: int)
    ensures f.Num? ==> r == f.n
    ensures !f.Num? ==> r == 3
  {
    match f
    case Num(n) => n
    case _ => 3
  }

  /** One legacy record in the v2 schema: calm is `6 - stress`. */
  function MigratePulse(o: OldPulse): (p: Pulse)
    ensures p.date == o.date
    ensures o.stress.Num? ==> p.calm + o.stress.n == 6
    ensures !o.stress.Num? ==> p.calm == 3
    ensures p.energy == NumberOr3(o.energy) && p.mood == NumberOr3(o.mood) && p.focus == NumberOr3(o.focus)
  {
    Pulse(o.date, NumberOr3(o.energy),
          if o.stress.Num? then 6 - o.stress.n else 3,
          NumberOr3(o.mood), NumberOr3(o.focus))
  }

  /** The `map` over the legacy list. */
  function Migrate(legacy: seq<OldPulse>): (r: seq<Pulse>)
    ensures |r| == |legacy|
    ensures forall k :: 0 <= k < |legacy| ==> r[k] == MigratePulse(legacy[k])
  {
    seq(|legacy|, k requires 0 <= k < |legacy| => MigratePulse(legacy[k]))
  }

  predicate OldFieldInScale(f: Field) {
    f.Num? && InScale(f.n)
  }

  predicate ValidOldPulse(o: OldPulse) {
    OldFieldInScale(o.energy) && OldFieldInScale(o.stress)
    && OldFieldInScale(o.mood) && OldFieldInScale(o.focus)
  }

  /** The reverse map, back to the legacy schema. */
  function Demigrate(p: Pulse): OldPulse {
    OldPulse(p.date, Num(p.energy), Num(6 - p.calm), Num(p.mood), Num(p.focus))
  }

  /** Migration keeps the list's length and dates, and sends legacy ratings on the scale to v2 ratings on the scale. */
  lemma MigrateKeepsDatesAndScale(legacy: seq<OldPulse>)
    ensures |Migrate(legacy)| == |legacy|
    ensures forall k :: 0 <= k < |legacy| ==> Migrate(legacy)[k].date == legacy[k].date
    ensures forall k :: 0 <= k < |legacy| && ValidOldPulse(legacy[k]) ==> ValidPulse(Migrate(legacy)[k])
    ensures forall k :: 0 <= k < |legacy| && !legacy[k].stress.Num? ==> Migrate(legacy)[k].calm == 3
    ensures forall k :: 0 <= k < |legacy| && !legacy[k].energy.Num? ==> Migrate(legacy)[k].energy == 3
    ensures forall k :: 0 <= k < |legacy| && !legacy[k].mood.Num? ==> Migrate(legacy)[k].mood == 3
    ensures forall k :: 0 <= k < |legacy| && !legacy[k].focus.Num? ==> Migrate(legacy)[k].focus == 3
  {
  }

  /** Migration loses nothing on well-formed legacy data: the reverse map gives the record back. */
  lemma MigrateRoundTrip(o: OldPulse)
    requires ValidOldPulse(o)
    ensures Demigrate(MigratePulse(o)) == o
  {
  }

  /** The polarity is inverted: more stress means less calm. */
  lemma MigrateInvertsPolarity(o1: OldPulse, o2: OldPulse)
    requires o1.stress.Num? && o2.stress.Num? && o1.stress.n < o2.stress.n
    ensures MigratePulse(o1).calm > MigratePulse(o2).calm
  {
  }

  /** The history the page starts from, and what it writes under the v2 key while loading. */
  datatype Loaded = Loaded(history: seq<Pulse>, writeV2: Option<seq<Pulse>>)

  /**
   * The load effect: a non-empty v2 list is taken as it is; otherwise a non-empty legacy
   * list whose first record has `stress` is migrated and written under the v2 key;
   * otherwise the history is empty.
   */
  function LoadHistory(v2: Stored<Pulse>, legacy: Stored<OldPulse>): (r: Loaded)
    ensures v2.Arr? && v2.items != [] ==> r == Loaded(v2.items, None)
    ensures (!(v2.Arr? && v2.items != []) && legacy.Arr? && legacy.items != []
             && !legacy.items[0].stress.Missing?)
            ==> r == Loaded(Migrate(legacy.items), Some(Migrate(legacy.items)))
    ensures r.writeV2.Some? ==> r.writeV2.value == r.history
    ensures r.history == [] ==> r.writeV2.None?
    ensures (!(v2.Arr? && v2.items != [])
             && !(legacy.Arr? && legacy.items != [] && !legacy.items[0].stress.Missing?))
            ==> r == Loaded([], None)
  {
    if v2.Arr? && |v2.items| > 0 then Loaded(v2.items, None)
    else if legacy.Arr? && |legacy.items| > 0 && !legacy.items[0].stress.Missing? then
      var migrated := Migrate(legacy.items);
      Loaded(migrated, Some(migrated))
    else Loaded([], None)
  }

  /** Data already in the v2 schema is preferred: the legacy key is then not read at all. */
  lemma V2IsPreferred(items: seq<Pulse>, legacy1: Stored<OldPulse>, legacy2: Stored<OldPulse>)
    requires items != []
    ensures LoadHistory(Arr(items), legacy1) == LoadHistory(Arr(items), legacy2)
    ensures LoadHistory(Arr(items), legacy1).writeV2.None?
  {
  }

  /** `arr.find(p => p.date === date)`: the first pulse of that date. */
  function FindByDate(ps: seq<Pulse>, date: string): (r: Option<Pulse>)
    ensures r.None? <==> forall k :: 0 <= k < |ps| ==> ps[k].date != date
    ensures r.Some? ==> exists k :: 0 <= k < |ps| && ps[k] == r.value && r.value.date == date
                                    && forall j :: 0 <= j < k ==> ps[j].date != date
  {
    if ps == [] then None
    else if ps[0].date == date then Some(ps[0])
    else
      var r := FindByDate(ps[1..], date);
      assert forall j :: 1 <= j < |ps| ==> ps[j] == ps[1..][j - 1];
      r
  }

  // ---------------------------------------------------------------------------
  // The history upsert

  const HistoryCap := 30

  /** `ps.filter(q => q.date !== date)`. */
  function DropDate(ps: seq<Pulse>, date: string): (r: seq<Pulse>)
    ensures |r| <= |ps|
    ensures forall k :: 0 <= k < |r| ==> r[k].date != date && r[k] in ps
    ensures forall k :: 0 <= k < |ps| && ps[k].date != date ==> ps[k] in r
  {
    Filter((q: Pulse) => q.date != date, ps)
  }

  /** Every pulse of another date is kept as many times as it occurs; none of that date is. */
  lemma DropDateCounts(ps: seq<Pulse>, date: string)
    ensures forall x: Pulse :: multiset(DropDate(ps, date))[x] == if x.date != date then multiset(ps)[x] else 0
  {
    FilterCounts((q: Pulse) => q.date != date, ps);
  }

  lemma DropDateIsSubsequence(ps: seq<Pulse>, date: string)
    ensures Subsequence(DropDate(ps, date), ps)
  {
    FilterIsSubsequence((q: Pulse) => q.date != date, ps);
  }

  /** `[p, ...all.filter(q => q.date !== p.date)].slice(0, 30)`. */
  function Upsert(p: Pulse, all: seq<Pulse>): (r: seq<Pulse>)
    ensures r != [] && r[0] == p
    ensures |r| <= HistoryCap
  {
    var rest := DropDate(all, p.date);
    ([p] + rest)[..Min(HistoryCap, 1 + |rest|)]
  }

  /**
   * After an upsert the new pulse is the head and the only entry of its date, and the
   * entries after it are the first older entries of other dates, in their old order.
   */
  lemma UpsertShape(p: Pulse, all: seq<Pulse>)
    ensures var r := Upsert(p, all);
            && (forall k :: 0 < k < |r| ==> r[k].date != p.date)
            && r[1..] == DropDate(all, p.date)[..|r| - 1]
            && |r| == Min(HistoryCap, 1 + |DropDate(all, p.date)|)
            && Subsequence(r[1..], all)
  {
    var rest := DropDate(all, p.date);
    var r := Upsert(p, all);
    assert r[1..] == rest[..|r| - 1];
    PrefixIsSubsequence(rest, |r| - 1);
    DropDateIsSubsequence(all, p.date);
    SubsequenceTransitive(r[1..], rest, all);
  }

  /** Every pulse of another date survives an upsert, unless the cap of 30 pushes it out. */
  lemma UpsertKeepsOtherDates(p: Pulse, all: seq<Pulse>, q: Pulse)
    requires q in all && q.date != p.date
    requires |all| < HistoryCap
    ensures q in Upsert(p, all)
  {
    var rest := DropDate(all, p.date);
    assert q in rest;
    assert Upsert(p, all) == [p] + rest;
  }

  /** Saving again for the same date replaces the earlier save instead of adding to it. */
  lemma UpsertSameDateReplaces(p: Pulse, q: Pulse, all: seq<Pulse>)
    requires p.date == q.date
    ensures Upsert(q, Upsert(p, all)) == Upsert(q, all)
  {
    var rest := DropDate(all, p.date);
    var u := Upsert(p, all);
    UpsertShape(p, all);
    DropAbsentDate(u[1..], q.date);
    UpsertOverOwnDate(q, u);
    var v := Upsert(q, all);
    UpsertShape(q, all);
    assert v == [q] + v[1..];
  }

  /** Dropping a date no entry has changes nothing. */
  lemma DropAbsentDate(ps: seq<Pulse>, date: string)
    requires forall k :: 0 <= k < |ps| ==> ps[k].date != date
    ensures DropDate(ps, date) == ps
  {
    FilterKeepsAll((q: Pulse) => q.date != date, ps);
  }

  /** Upserting over a history whose head has the same date and whose rest has none replaces the head. */
  lemma UpsertOverOwnDate(p: Pulse, u: seq<Pulse>)
    requires u != [] && u[0].date == p.date && |u| <= HistoryCap
    requires DropDate(u[1..], p.date) == u[1..]
    ensures Upsert(p, u) == [p] + u[1..]
  {
    var date := p.date;
    FilterSkipsHead((q: Pulse) => q.date != date, u);
    assert DropDate(u, date) == u[1..];
    assert Min(HistoryCap, 1 + |u[1..]|) == |u|;
  }

  /** No two entries share a date. */
  predicate DistinctDates(ps: seq<Pulse>) {
    forall i, j :: 0 <= i < j < |ps| ==> ps[i].date != ps[j].date
  }

  lemma DropDateKeepsDistinct(ps: seq<Pulse>, date: string)
    requires DistinctDates(ps)
    ensures DistinctDates(DropDate(ps, date))
  {
    var r := DropDate(ps, date);
    DropDateIsSubsequence(ps, date);
    forall i, j | 0 <= i < j < |r| ensures r[i].date != r[j].date {
      SubsequenceKeepsOrder(r, ps, i, j);
    }
  }

  /** At most one record per date: an upsert keeps that property of the history. */
  lemma UpsertKeepsDistinctDates(p: Pulse, all: seq<Pulse>)
    requires DistinctDates(all)
    ensures DistinctDates(Upsert(p, all))
  {
    var rest := DropDate(all, p.date);
    DropDateKeepsDistinct(all, p.date);
    var r := Upsert(p, all);
    UpsertShape(p, all);
    forall i, j | 0 <= i < j < |r| ensures r[i].date != r[j].date {
      if i > 0 {
        assert r[i] == rest[i - 1] && r[j] == rest[j - 1];
      }
    }
  }

  // ---------------------------------------------------------------------------
  // The page state

  datatype Axis = Energy | Calm | Mood | Focus

  /**
   * The Today page: the saved history `all`, the pulse being edited, the time of the last
   * save, and the values storage holds under the v2 and the legacy key.
   */
  class TodayPage {
    var all: seq<Pulse>
    var pulse: Pulse
    var savedAt: Option<int>
    var v2Key: Stored<Pulse>
    var oldKey: Stored<OldPulse>

    /** The first render: an empty history and a form at 3/5 on every slider for `today`. */
    constructor (today: string, v2: Stored<Pulse>, legacy: Stored<OldPulse>)
      ensures all == [] && pulse == Pulse(today, 3, 3, 3, 3) && savedAt == None
      ensures v2Key == v2 && oldKey == legacy
    {
      all := [];
      pulse := Pulse(today, 3, 3, 3, 3);
      savedAt := None;
      v2Key := v2;
      oldKey := legacy;
    }

    /** The load effect: read (and perhaps migrate) the history, and prefill today's saved pulse. */
    method Load(today: string)
      modifies this
      ensures all == LoadHistory(old(v2Key), old(oldKey)).history
      ensures v2Key == (match LoadHistory(old(v2Key), old(oldKey)).writeV2
                        case Some(w) => Arr(w)
                        case None => old(v2Key))
      ensures pulse == FindByDate(all, today).GetOr(old(pulse))
      ensures savedAt == old(savedAt) && oldKey == old(oldKey)
    {
      var loaded := LoadHistory(v2Key, oldKey);
      all := loaded.history;
      match loaded.writeV2 {
        case Some(w) => v2Key := Arr(w);
        case None =>
      }
      var todayEntry := FindByDate(all, today);
      if todayEntry.Some? {
        pulse := todayEntry.value;
      }
    }

    /** A slider moved: one rating of the form changes. */
    method SetRating(axis: Axis, value: int)
      modifies this`pulse
      ensures pulse == match axis
                       case Energy => old(pulse).(energy := value)
                       case Calm => old(pulse).(calm := value)
                       case Mood => old(pulse).(mood := value)
                       case Focus => old(pulse).(focus := value)
    {
      match axis {
        case Energy => pulse := pulse.(energy := value);
        case Calm => pulse := pulse.(calm := value);
        case Mood => pulse := pulse.(mood := value);
        case Focus => pulse := pulse.(focus := value);
      }
    }

    /** Save: upsert the form's pulse into the history, persist it under the v2 key, stamp the time. */
    method Submit(now: int)
      modifies this
      ensures all == Upsert(old(pulse), old(all))
      ensures v2Key == Arr(all)
      ensures savedAt == Some(now)
      ensures pulse == old(pulse) && oldKey == old(oldKey)
    {
      var next := Upsert(pulse, all);
      all := next;
      v2Key := Arr(next);
      savedAt := Some(now);
    }

    /** The live card: the coach's answer for the pulse on the form, as the history would be after saving it. */
    function LiveSuggestion(): (r: CoachSuggestion)
      reads this
      ensures r == SuggestFromPulse(pulse, all)
      ensures r.title == Render(FirstFiring(RuleOrder, pulse).GetOr(MaintainMomentum), pulse).title
    {
      SuggestFromPulse(pulse, Upsert(pulse, all))
    }
  }
}
