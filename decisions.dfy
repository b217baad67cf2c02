/**
 * The Decision Journal page: a log of decisions, newest first and capped at 50, of which
 * the six newest are listed.
 */
module Decisions {
  import opened Wrappers

  datatype Decision = Decision(
    id: string,
    date: string,
    decision: string,
    options: string,
    assumptions: string,
    nextAction: string)

  const LogCap := 50
  const RecentShown := 6

  /** `{ ...d, id: d.id || freshId }`: an id already set is kept; the fresh one fills an empty id. */
  function WithId(d: Decision, freshId: string): (r: Decision)
    ensures d.id != "" ==> r == d
    ensures d.id == "" ==> r == d.(id := freshId)
  {
    if d.id != "" then d else d.(id := freshId)
  }

  /** `[item, ...all].slice(0, 50)`. */
  function PrependCapped(item: Decision, log: seq<Decision>): (r: seq<Decision>)
    ensures r != [] && r[0] == item
    ensures |r| == Min(LogCap, |log| + 1)
    ensures r[1..] == log[..|r| - 1]
  {
    var r := ([item] + log)[..Min(LogCap, |log| + 1)];
    assert r[1..] == log[..|r| - 1];
    r
  }

  /** The log is a queue that forgets its oldest entries: two saves put both in front, newest first. */
  lemma {:induction false} PrependCappedTwice(a: Decision, b: Decision, log: seq<Decision>)
    ensures PrependCapped(b, PrependCapped(a, log)) == ([b, a] + log)[..Min(LogCap, |log| + 2)]
  {
    var once := PrependCapped(a, log);
    var twice := PrependCapped(b, once);
    var expected := ([b, a] + log)[..Min(LogCap, |log| + 2)];
    assert |twice| == |expected|;
    forall k | 0 <= k < |twice| ensures twice[k] == expected[k] {
      if k >= 2 {
        assert twice[k] == once[k - 1] == log[k - 2];
      }
    }
  }

  /** A full log drops exactly its oldest entry. */
  lemma FullLogDropsOldest(item: Decision, log: seq<Decision>)
    requires |log| == LogCap
    ensures PrependCapped(item, log) == [item] + log[..LogCap - 1]
  {
  }

  /** The "Recent decisions" list: `all.slice(0, 6)`. */
  function Recent(all: seq<Decision>): (r: seq<Decision>)
    ensures |r| == Min(RecentShown, |all|)
    ensures r == all[..|r|]
  {
    all[..Min(RecentShown, |all|)]
  }

  /** Right after a save the saved decision heads the recent list. */
  lemma SavedDecisionIsShown(item: Decision, log: seq<Decision>)
    ensures Recent(PrependCapped(item, log)) != [] && Recent(PrependCapped(item, log))[0] == item
  {
  }

  /** The empty form the page resets to. */
  function BlankDecision(id: string, today: string): Decision {
    Decision(id, today, "", "", "", "")
  }

  /** The Decision Journal page: the log, the form, and the log storage holds under its key. */
  class DecisionsPage {
    var all: seq<Decision>
    var draft: Decision
    var stored: seq<Decision>

    constructor (freshId: string, today: string, storage: seq<Decision>)
      ensures all == [] && draft == BlankDecision(freshId, today) && stored == storage
    {
      all := [];
      draft := BlankDecision(freshId, today);
      stored := storage;
    }

    /** The mount effect. */
    method LoadStored()
      modifies this`all
      ensures all == stored
    {
      all := stored;
    }

    /** Typing in the form; the id and date stay. */
    method EditDraft(decision: string, options: string, assumptions: string, nextAction: string)
      modifies this`draft
      ensures draft == old(draft).(decision := decision, options := options,
                                   assumptions := assumptions, nextAction := nextAction)
    {
      draft := draft.(decision := decision, options := options,
                      assumptions := assumptions, nextAction := nextAction);
    }

    /**
     * Save: the form (with an id) goes in front of the log, the log is capped at 50 and
     * persisted, and the form is reset with a new id.
     */
    method Submit(fallbackId: string, resetId: string, today: string)
      modifies this
      ensures all == PrependCapped(WithId(old(draft), fallbackId), old(all))
      ensures stored == all
      ensures draft == BlankDecision(resetId, today)
    {
      var item := WithId(draft, fallbackId);
      all := PrependCapped(item, all);
      stored := all;
      draft := BlankDecision(resetId, today);
    }
  }
}
