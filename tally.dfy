/**
 * The weekly tally of completed chores: the zero value used when the tally
 * file is missing or not valid JSON, the Monday reset applied when the tally is
 * loaded, and the exactly-once counting step applied on every cycle.
 */
module TallyStore {
  import opened Wrappers

  /** The persisted record: the running count, the ids already counted and the
      weekday name stamped by the last cycle (`null` in a new file). */
  datatype Tally = Tally(tasksCompleted: nat, counted: set<string>, lastReset: Option<string>)

  const Monday: string := "Monday"

  /** The tally that stands in for a missing tally file or one that is not valid JSON. */
  function ZeroTally(): (t: Tally)
    ensures t.tasksCompleted == 0 && t.counted == {} && t.lastReset == None
  {
    Tally(0, {}, None)
  }

  /** True when loading on weekday `today` starts a new week. */
  predicate ResetDue(t: Tally, today: string) {
    today == Monday && t.lastReset != Some(today)
  }

  /** The reset decision made when the tally is loaded. */
  function MaybeReset(t: Tally, today: string): (r: Tally)
    ensures ResetDue(t, today) ==> r.tasksCompleted == 0 && r.counted == {} && r.lastReset == Some(Monday)
    ensures !ResetDue(t, today) ==> r == t
  {
    if ResetDue(t, today) then Tally(0, {}, Some(today)) else t
  }

  /** Loading: the stored record (None when the file is missing or not valid JSON),
      then the reset decision for weekday `today`. */
  function LoadTally(stored: Option<Tally>, today: string): (r: Tally)
    ensures stored.None? && today != Monday ==> r == ZeroTally()
    ensures stored.None? && today == Monday ==> r == Tally(0, {}, Some(Monday))
    ensures stored.Some? ==> r == MaybeReset(stored.value, today)
  {
    MaybeReset(if stored.Some? then stored.value else ZeroTally(), today)
  }

  /** The ids of `completed` that this tally has not counted yet. */
  function NewCompletions(t: Tally, completed: set<string>): set<string> {
    completed - t.counted
  }

  /** The counting step: every newly seen completion is counted once, the
      counted set absorbs all of `completed`, and the tally is stamped with
      today's weekday name. */
  function CountCompletions(t: Tally, completed: set<string>, today: string): (r: Tally)
    ensures r.tasksCompleted == t.tasksCompleted + |completed - t.counted|
    ensures r.counted == t.counted + completed
    ensures completed <= r.counted && t.counted <= r.counted
    ensures r.lastReset == Some(today)
  {
    var added := NewCompletions(t, completed);
    t.(tasksCompleted := t.tasksCompleted + |added|,
       counted := t.counted + completed,
       lastReset := Some(today))
  }

  /** The count never decreases, and it stays the same exactly when every
      completion was already counted. */
  lemma CountMonotone(t: Tally, completed: set<string>, today: string)
    ensures CountCompletions(t, completed, today).tasksCompleted >= t.tasksCompleted
    ensures CountCompletions(t, completed, today).tasksCompleted == t.tasksCompleted
            <==> completed <= t.counted
  {
    if completed - t.counted == {} {
      forall x | x in completed ensures x in t.counted {
        assert x !in completed - t.counted;
      }
    } else {
      var x :| x in completed - t.counted;
      assert x !in t.counted;
    }
  }

  /** Re-applying the same completion set adds nothing. */
  lemma CountIdempotent(t: Tally, completed: set<string>, today: string)
    ensures CountCompletions(CountCompletions(t, completed, today), completed, today)
            == CountCompletions(t, completed, today)
  {
    var once := CountCompletions(t, completed, today);
    assert completed - once.counted == {};
  }

  /** A tally whose count equals the number of ids it has counted. */
  predicate Consistent(t: Tally) {
    t.tasksCompleted == |t.counted|
  }

  /** The counting step keeps the count equal to the number of distinct ids
      counted. */
  lemma CountKeepsConsistent(t: Tally, completed: set<string>, today: string)
    requires Consistent(t)
    ensures Consistent(CountCompletions(t, completed, today))
  {
    var added := completed - t.counted;
    assert t.counted + completed == t.counted + added;
    assert t.counted * added == {};
    assert |t.counted + added| + |t.counted * added| == |t.counted| + |added|;
  }

  /** The zero value and a new week start consistent, and a tally that is not
      reset stays as consistent as it was. */
  lemma ResetConsistent(t: Tally, today: string)
    requires ResetDue(t, today) || Consistent(t)
    ensures Consistent(MaybeReset(t, today))
    ensures Consistent(ZeroTally())
  {
  }

  /** Loading twice with the same weekday name resets at most once. */
  lemma ResetOncePerDay(t: Tally, today: string)
    ensures MaybeReset(MaybeReset(t, today), today) == MaybeReset(t, today)
  {
  }

  /** The stamp is only a weekday name: a load on any day but Monday, or on a
      Monday when the stamp already says "Monday" (from this Monday or from
      any earlier one), keeps the stored tally. */
  lemma NoResetWithoutFreshMonday(t: Tally, today: string)
    requires today != Monday || t.lastReset == Some(Monday)
    ensures LoadTally(Some(t), today) == t
  {
  }

  /** After a counting step the tally carries today's stamp, so reloading it
      the same day (as the drawing step does) changes nothing. */
  lemma ReloadAfterCountIsStable(t: Tally, completed: set<string>, today: string)
    ensures LoadTally(Some(CountCompletions(t, completed, today)), today)
            == CountCompletions(t, completed, today)
  {
  }

  /** One cycle's tally work: load (with the reset decision), then count. */
  function CycleTally(stored: Option<Tally>, completed: set<string>, today: string): Tally {
    CountCompletions(LoadTally(stored, today), completed, today)
  }

  /** A second cycle on the same day with the same completions leaves the
      persisted tally as the first cycle left it, Mondays included. */
  lemma SecondCycleSameDay(stored: Option<Tally>, completed: set<string>, today: string)
    ensures CycleTally(Some(CycleTally(stored, completed, today)), completed, today)
            == CycleTally(stored, completed, today)
  {
    var first := CycleTally(stored, completed, today);
    ReloadAfterCountIsStable(LoadTally(stored, today), completed, today);
    CountIdempotent(LoadTally(stored, today), completed, today);
  }

  /** The first cycle on a Monday after a tally stamped on another day starts
      the week from zero: only this cycle's completions are counted. */
  lemma MondayStartsNewWeek(t: Tally, completed: set<string>)
    requires t.lastReset != Some(Monday)
    ensures CycleTally(Some(t), completed, Monday) == Tally(|completed|, completed, Some(Monday))
  {
    assert completed - {} == completed;
  }

  /** The example cycle: nothing stored, one completion "t1". */
  lemma FirstCycleExample(today: string)
    ensures CycleTally(None, {"t1"}, today) == Tally(1, {"t1"}, Some(today))
  {
    assert {"t1"} - {} == {"t1"};
  }
}
