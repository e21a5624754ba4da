/**
 * One cycle of `fetch_tasks_by_section` once the sections, the active tasks
 * and the completed ids have been received: the tally is loaded, updated
 * field by field and saved, and only then are the tasks grouped by section.
 */
module Chores {
  import opened Wrappers
  import opened TallyStore
  import opened Aggregate

  /** The tally block: the loaded record's fields are updated one after the
      other, as the cycle updates the dictionary it loaded. */
  method CountStep(loaded: Tally, completed: set<string>, today: string) returns (tally: Tally)
    ensures tally == CountCompletions(loaded, completed, today)
  {
    tally := loaded;
    var counted := tally.counted;
    var added := completed - counted;
    tally := tally.(tasksCompleted := tally.tasksCompleted + |added|);
    tally := tally.(counted := counted + completed);
    tally := tally.(lastReset := Some(today));
  }

  /** A cycle: `stored` is what the tally file holds (None when it is
      missing or not valid JSON). The tally returned is the one saved, and it
      is saved whether or not the grouping then fails. */
  method FetchTasksBySection(stored: Option<Tally>, sections: seq<Section>, tasks: seq<Task>,
                             completed: set<string>, today: string)
    returns (saved: Tally, grouping: Result<Grouping, string>)
    requires DistinctIds(sections)
    ensures saved == CycleTally(stored, completed, today)
    ensures var loaded := LoadTally(stored, today);
      && saved.tasksCompleted == loaded.tasksCompleted + |completed - loaded.counted|
      && saved.counted == loaded.counted + completed
      && saved.lastReset == Some(today)
    ensures LoadTally(Some(saved), today) == saved
    ensures grouping.Success? <==> AllFiled(sections, tasks)
    ensures grouping.Failure? ==> grouping.error == Uncategorized
    ensures grouping.Success? ==>
      && grouping.value.names == SectionNames(sections)
      && (forall n :: n in grouping.value.views <==> n in grouping.value.names)
      && (forall n :: n in grouping.value.views ==>
            grouping.value.views[n] == SectionView(IncompleteIn(sections, tasks, completed, n),
                                                   CompletedIn(sections, tasks, completed, n)))
      && Total(grouping.value.names, grouping.value.views) == |tasks|
  {
    var tally := LoadTally(stored, today);
    saved := CountStep(tally, completed, today);
    ReloadAfterCountIsStable(tally, completed, today);
    grouping := GroupTasks(sections, tasks, completed);
  }
}
