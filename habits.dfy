/**
 * The Habits page: a list of habits with due dates, seeded from a suggestion link
 * without duplicates, ticked off day by day, removed by id and shown sorted by due date.
 */
module Habits {
  import opened Wrappers
  import opened JsStrings
  import opened Sequences

  datatype Habit = Habit(
    id: string,
    text: string,
    due: string,
    createdAt: string,
    doneDates: seq<string>,
    sourceId: Option<string>)

  // ---------------------------------------------------------------------------
  // Seeding from a link

  /** A query parameter counts as given when it is present and not empty (JavaScript truthiness). */
  predicate Given(param: Option<string>) {
    param.Some? && param.value != ""
  }

  /** The seed text is blank when it is missing or trims to nothing; such a link adds nothing. */
  predicate BlankSeed(seed: Option<string>) {
    seed.None? || Trim(seed.value) == ""
  }

  /** The due date of a seeded habit: the `due` parameter when it has the length of an ISO date, else tomorrow. */
  function SeedDueDate(seedDue: Option<string>, tomorrow: string): (r: string)
    ensures seedDue.Some? && |seedDue.value| == 10 ==> r == seedDue.value
    ensures !(seedDue.Some? && |seedDue.value| == 10) ==> r == tomorrow
  {
    if Given(seedDue) && |seedDue.value| == 10 then seedDue.value else tomorrow
  }

  /** `existing.some(h => h.sourceId === sid)`. */
  predicate HasSource(hs: seq<Habit>, sid: string) {
    exists k :: 0 <= k < |hs| && hs[k].sourceId == Some(sid)
  }

  /** `existing.some(h => h.text === text && h.due === due)`. */
  predicate HasTextAndDue(hs: seq<Habit>, text: string, due: string) {
    exists k :: 0 <= k < |hs| && hs[k].text == text && hs[k].due == due
  }

  /** Whether a non-blank seed is already in `existing`: by token when one is given, else by text and due date. */
  predicate SeedPresent(existing: seq<Habit>, seed: string, due: string, sid: Option<string>) {
    if Given(sid) then HasSource(existing, sid.value)
    else HasTextAndDue(existing, Trim(seed), due)
  }

  /** The state update of the seed effect: the new list, and whether it was written to storage. */
  datatype SeedResult = SeedResult(habits: seq<Habit>, saved: bool)

  /**
   * The seed effect. A blank seed leaves the list alone. Otherwise the list in use is the
   * current one, or the stored one when the current one is empty; a seed already present
   * in it changes nothing more, and a new one is put at the head and saved.
   */
  function Seed(prev: seq<Habit>, stored: seq<Habit>, seed: Option<string>, seedDue: Option<string>,
                sid: Option<string>, freshId: string, tomorrow: string, now: string): (r: SeedResult)
    ensures BlankSeed(seed) ==> r == SeedResult(prev, false)
    ensures !BlankSeed(seed) ==>
              var existing := if prev != [] then prev else stored;
              var due := SeedDueDate(seedDue, tomorrow);
              if SeedPresent(existing, seed.value, due, sid) then r == SeedResult(existing, false)
              else r.saved && |r.habits| == |existing| + 1 && r.habits[1..] == existing
                   && r.habits[0] == Habit(freshId, Trim(seed.value), due, now, [],
                                           if Given(sid) then sid else None)
  {
    if seed.None? || Trim(seed.value) == "" then SeedResult(prev, false)
    else
      var due := SeedDueDate(seedDue, tomorrow);
      var existing := if |prev| > 0 then prev else stored;
      if Given(sid) && HasSource(existing, sid.value) then SeedResult(existing, false)
      else if !Given(sid) && HasTextAndDue(existing, Trim(seed.value), due) then SeedResult(existing, false)
      else
        var h := Habit(freshId, Trim(seed.value), due, now, [], if Given(sid) then sid else None);
        SeedResult([h] + existing, true)
  }

  /** After a seed, the seed is present in the list (unless it was blank). */
  lemma SeedIsPresentAfter(prev: seq<Habit>, stored: seq<Habit>, seed: Option<string>,
                           seedDue: Option<string>, sid: Option<string>,
                           freshId: string, tomorrow: string, now: string)
    requires !BlankSeed(seed)
    ensures var r := Seed(prev, stored, seed, seedDue, sid, freshId, tomorrow, now);
            r.habits != [] && SeedPresent(r.habits, seed.value, SeedDueDate(seedDue, tomorrow), sid)
  {
    var r := Seed(prev, stored, seed, seedDue, sid, freshId, tomorrow, now);
    var due := SeedDueDate(seedDue, tomorrow);
    var existing := if prev != [] then prev else stored;
    if !SeedPresent(existing, seed.value, due, sid) {
      assert r.habits[0].text == Trim(seed.value) && r.habits[0].due == due;
      if Given(sid) {
        assert r.habits[0].sourceId == Some(sid.value);
      }
    } else {
      if Given(sid) {
        var k :| 0 <= k < |existing| && existing[k].sourceId == Some(sid.value);
      } else {
        var k :| 0 <= k < |existing| && existing[k].text == Trim(seed.value) && existing[k].due == due;
      }
    }
  }

  /**
   * Following the same link twice adds the habit once: the second visit, on the same
   * tomorrow and whatever fresh id and creation time it sees, leaves the list as the first
   * visit made it.
   */
  lemma SeedIdempotent(prev: seq<Habit>, stored: seq<Habit>, seed: Option<string>,
                       seedDue: Option<string>, sid: Option<string>, tomorrow: string,
                       id1: string, now1: string, id2: string, now2: string)
    ensures var once := Seed(prev, stored, seed, seedDue, sid, id1, tomorrow, now1);
            var twice := Seed(once.habits, stored, seed, seedDue, sid, id2, tomorrow, now2);
            twice.habits == once.habits && !twice.saved
  {
    if !BlankSeed(seed) {
      SeedIsPresentAfter(prev, stored, seed, seedDue, sid, id1, tomorrow, now1);
    }
  }

  /** With a token, a habit carrying that token blocks the seed whatever its text and date. */
  lemma SeenTokenAddsNothing(prev: seq<Habit>, stored: seq<Habit>, seed: Option<string>,
                             seedDue: Option<string>, sid: string,
                             freshId: string, tomorrow: string, now: string)
    requires sid != "" && HasSource(if prev != [] then prev else stored, sid)
    ensures var r := Seed(prev, stored, seed, seedDue, Some(sid), freshId, tomorrow, now);
            !r.saved && r.habits == (if BlankSeed(seed) then prev else if prev != [] then prev else stored)
  {
  }

  /** With a new token, a non-blank seed adds exactly one habit, even when its text and date repeat an old one. */
  lemma NewTokenAddsOne(prev: seq<Habit>, stored: seq<Habit>, seed: Option<string>,
                        seedDue: Option<string>, sid: string,
                        freshId: string, tomorrow: string, now: string)
    requires !BlankSeed(seed) && sid != "" && !HasSource(if prev != [] then prev else stored, sid)
    ensures var r := Seed(prev, stored, seed, seedDue, Some(sid), freshId, tomorrow, now);
            r.saved && |r.habits| == |if prev != [] then prev else stored| + 1
            && r.habits[0].sourceId == Some(sid)
  {
  }

  /** No two habits carry the same token. */
  predicate UniqueSources(hs: seq<Habit>) {
    forall i, j :: 0 <= i < j < |hs| && hs[i].sourceId.Some? ==> hs[i].sourceId != hs[j].sourceId
  }

  /** Seeding never gives two habits the same token. */
  lemma SeedKeepsSourcesUnique(prev: seq<Habit>, stored: seq<Habit>, seed: Option<string>,
                               seedDue: Option<string>, sid: Option<string>,
                               freshId: string, tomorrow: string, now: string)
    requires UniqueSources(prev) && UniqueSources(stored)
    ensures UniqueSources(Seed(prev, stored, seed, seedDue, sid, freshId, tomorrow, now).habits)
  {
    var r := Seed(prev, stored, seed, seedDue, sid, freshId, tomorrow, now);
    var existing := if prev != [] then prev else stored;
    if r.saved {
      var hs := r.habits;
      forall i, j | 0 <= i < j < |hs| && hs[i].sourceId.Some? ensures hs[i].sourceId != hs[j].sourceId {
        if i == 0 {
          assert hs[j] == existing[j - 1];
          if Given(sid) {
            assert !HasSource(existing, sid.value);
          }
        } else {
          assert hs[i] == existing[i - 1] && hs[j] == existing[j - 1];
        }
      }
    }
  }

  // ---------------------------------------------------------------------------
  // Done-today toggling

  /** `dates.filter(d => d !== day)`. */
  function WithoutDay(dates: seq<string>, day: string): (r: seq<string>)
    ensures day !in r
    ensures forall k :: 0 <= k < |r| ==> r[k] in dates
    ensures forall k :: 0 <= k < |dates| && dates[k] != day ==> dates[k] in r
  {
    Filter((d: string) => d != day, dates)
  }

  /** Today's membership in `dates` flips; no other date is added or lost. */
  function ToggleDay(dates: seq<string>, today: string): (r: seq<string>)
    ensures (today in r) <==> (today !in dates)
    ensures forall d :: d != today ==> (d in r <==> d in dates)
  {
    if today in dates then WithoutDay(dates, today) else [today] + dates
  }

  /** Ticking twice from "not done" gives back exactly the dates there were. */
  lemma ToggleTwiceRestores(dates: seq<string>, today: string)
    requires today !in dates
    ensures ToggleDay(ToggleDay(dates, today), today) == dates
  {
    assert ([today] + dates)[1..] == dates;
    FilterKeepsAll((d: string) => d != today, dates);
  }

  /** `toggleDone(id)` as a transform of the list: every habit with that id gets today flipped. */
  function ToggleDone(hs: seq<Habit>, id: string, today: string): (r: seq<Habit>)
    ensures |r| == |hs|
    ensures forall k :: 0 <= k < |hs| && hs[k].id != id ==> r[k] == hs[k]
    ensures forall k :: 0 <= k < |hs| && hs[k].id == id ==>
              r[k].(doneDates := hs[k].doneDates) == hs[k]
              && (today in r[k].doneDates <==> today !in hs[k].doneDates)
              && (forall d :: d != today ==> (d in r[k].doneDates <==> d in hs[k].doneDates))
  {
    seq(|hs|, k requires 0 <= k < |hs| =>
      if hs[k].id != id then hs[k] else hs[k].(doneDates := ToggleDay(hs[k].doneDates, today)))
  }

  // ---------------------------------------------------------------------------
  // Removal

  /** `removeHabit(id)` as a transform: `habits.filter(h => h.id !== id)`. */
  function RemoveById(hs: seq<Habit>, id: string): (r: seq<Habit>)
    ensures forall k :: 0 <= k < |r| ==> r[k].id != id && r[k] in hs
    ensures forall k :: 0 <= k < |hs| && hs[k].id != id ==> hs[k] in r
  {
    Filter((h: Habit) => h.id != id, hs)
  }

  /** Removal keeps the remaining habits in their order. */
  lemma RemoveKeepsOrder(hs: seq<Habit>, id: string)
    ensures Subsequence(RemoveById(hs, id), hs)
  {
    FilterIsSubsequence((h: Habit) => h.id != id, hs);
  }

  /** Removing an id that no habit has changes nothing. */
  lemma RemoveAbsentId(hs: seq<Habit>, id: string)
    requires forall k :: 0 <= k < |hs| ==> hs[k].id != id
    ensures RemoveById(hs, id) == hs
  {
    FilterKeepsAll((h: Habit) => h.id != id, hs);
  }

  // ---------------------------------------------------------------------------
  // The upcoming view

  /**
   * `a.localeCompare(b) <= 0` on due dates, as code-point order. For dates written
   * `YYYY-MM-DD` this is the calendar order.
   */
  predicate DateLe(a: string, b: string) {
    if a == [] then true
    else if b == [] then false
    else if a[0] != b[0] then a[0] < b[0]
    else DateLe(a[1..], b[1..])
  }

  lemma {:induction false} DateLeTotal(a: string, b: string)
    ensures DateLe(a, b) || DateLe(b, a)
  {
    if a != [] && b != [] && a[0] == b[0] {
      DateLeTotal(a[1..], b[1..]);
    }
  }

  lemma {:induction false} DateLeTransitive(a: string, b: string, c: string)
    requires DateLe(a, b) && DateLe(b, c)
    ensures DateLe(a, c)
  {
    if a != [] && b != [] && c != [] && a[0] == b[0] && b[0] == c[0] {
      DateLeTransitive(a[1..], b[1..], c[1..]);
    }
  }

  predicate SortedByDue(hs: seq<Habit>) {
    forall i, j :: 0 <= i < j < |hs| ==> DateLe(hs[i].due, hs[j].due)
  }

  /** Puts `h` before the first habit due no earlier than it, so that equal dates keep their order. */
  function InsertByDue(h: Habit, sorted: seq<Habit>): (r: seq<Habit>)
    ensures multiset(r) == multiset(sorted) + multiset{h}
  {
    if sorted == [] then [h]
    else if DateLe(h.due, sorted[0].due) then [h] + sorted
    else
      assert sorted == [sorted[0]] + sorted[1..];
      [sorted[0]] + InsertByDue(h, sorted[1..])
  }

  lemma {:induction false} InsertByDueSorted(h: Habit, sorted: seq<Habit>)
    requires SortedByDue(sorted)
    ensures SortedByDue(InsertByDue(h, sorted))
  {
    if sorted == [] {
    } else if DateLe(h.due, sorted[0].due) {
      forall j | 0 < j < |sorted| ensures DateLe(h.due, sorted[j].due) {
        DateLeTransitive(h.due, sorted[0].due, sorted[j].due);
      }
    } else {
      DateLeTotal(h.due, sorted[0].due);
      var rest := InsertByDue(h, sorted[1..]);
      InsertByDueSorted(h, sorted[1..]);
      var r := [sorted[0]] + rest;
      forall j | 0 <= j < |rest| ensures DateLe(sorted[0].due, rest[j].due) {
        assert rest[j] in multiset(rest);
        if rest[j] != h {
          assert rest[j] in multiset(sorted[1..]);
          var k :| 0 <= k < |sorted| - 1 && sorted[1..][k] == rest[j];
          assert sorted[k + 1] == rest[j];
        }
      }
      forall i, j | 0 <= i < j < |r| ensures DateLe(r[i].due, r[j].due) {
        if i > 0 {
          assert r[i] == rest[i - 1] && r[j] == rest[j - 1];
        } else {
          assert r[j] == rest[j - 1];
        }
      }
    }
  }

  /** The `upcoming` view: `[...habits].sort((a, b) => a.due.localeCompare(b.due))`. */
  function SortByDue(hs: seq<Habit>): (r: seq<Habit>)
    ensures SortedByDue(r)
    ensures multiset(r) == multiset(hs)
  {
    if hs == [] then []
    else
      assert hs == [hs[0]] + hs[1..];
      InsertByDueSorted(hs[0], SortByDue(hs[1..]));
      InsertByDue(hs[0], SortByDue(hs[1..]))
  }

  // ---------------------------------------------------------------------------
  // The page state

  /** The Habits page: the list, the add form, and the list storage holds under the habits key. */
  class HabitsPage {
    var habits: seq<Habit>
    var text: string
    var due: string
    var stored: seq<Habit>

    /** The first render: an empty list and an empty form due `defaultDue` (three days out). */
    constructor (defaultDue: string, storage: seq<Habit>)
      ensures habits == [] && text == "" && due == defaultDue && stored == storage
    {
      habits := [];
      text := "";
      due := defaultDue;
      stored := storage;
    }

    /** The mount effect: the list is what storage holds. */
    method LoadStored()
      modifies this`habits
      ensures habits == stored
    {
      habits := stored;
    }

    /** The seed effect for the link's `seed`, `due` and `sid` parameters. */
    method ApplySeed(seed: Option<string>, seedDue: Option<string>, sid: Option<string>,
                     freshId: string, tomorrow: string, now: string)
      modifies this`habits, this`stored
      ensures var r := Seed(old(habits), old(stored), seed, seedDue, sid, freshId, tomorrow, now);
              habits == r.habits && stored == (if r.saved then r.habits else old(stored))
      ensures BlankSeed(seed) ==> habits == old(habits) && stored == old(stored)
    {
      if seed.None? || Trim(seed.value) == "" {
        return;
      }
      var r := Seed(habits, stored, seed, seedDue, sid, freshId, tomorrow, now);
      habits := r.habits;
      if r.saved {
        stored := r.habits;
      }
    }

    /** Typing in the add form. */
    method EditDraft(newText: string, newDue: string)
      modifies this`text, this`due
      ensures text == newText && due == newDue
    {
      text := newText;
      due := newDue;
    }

    /**
     * The Add button: a blank text does nothing; otherwise one habit with the trimmed text is
     * put at the head, saved, and the form is reset (its due date to `resetDue`).
     */
    method AddHabit(freshId: string, now: string, resetDue: string)
      modifies this
      ensures Trim(old(text)) == "" ==>
                habits == old(habits) && stored == old(stored) && text == old(text) && due == old(due)
      ensures Trim(old(text)) != "" ==>
                && habits == [Habit(freshId, Trim(old(text)), old(due), now, [], None)] + old(habits)
                && stored == habits && text == "" && due == resetDue
    {
      var t := Trim(text);
      if t == "" {
        return;
      }
      var h := Habit(freshId, t, due, now, [], None);
      habits := [h] + habits;
      stored := habits;
      text := "";
      due := resetDue;
    }

    /** The Done/Undo button of habit `id`. */
    method ToggleDoneToday(id: string, today: string)
      modifies this`habits, this`stored
      ensures habits == ToggleDone(old(habits), id, today) && stored == habits
    {
      habits := ToggleDone(habits, id, today);
      stored := habits;
    }

    /** The Remove button of habit `id`. */
    method RemoveHabit(id: string)
      modifies this`habits, this`stored
      ensures habits == RemoveById(old(habits), id) && stored == habits
    {
      habits := RemoveById(habits, id);
      stored := habits;
    }

    /** The list as shown: the same habits, ordered by due date. */
    function Upcoming(): (r: seq<Habit>)
      reads this
      ensures SortedByDue(r) && multiset(r) == multiset(habits)
    {
      SortByDue(habits)
    }
  }
}
