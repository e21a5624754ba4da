/**
 * Grouping the project's active tasks by section: the per-section views are
 * pre-filled from the section names, then each task either bumps its
 * section's completed count or has its content appended to the section's
 * incomplete list.
 */
module Aggregate {
  import opened Wrappers

  /** One entry of the id-to-name dictionary of the project's sections. */
  datatype Section = Section(id: string, name: string)

  /** An active task as listed by the task service. */
  datatype Task = Task(id: string, content: string, sectionId: Option<string>)

  /** What is shown for one section: incomplete task contents, in input order,
      and how many of its tasks are in the completed set. */
  datatype SectionView = SectionView(incomplete: seq<string>, completedCount: nat)

  /** The insertion-ordered dictionary from section name to view. */
  datatype Grouping = Grouping(names: seq<string>, views: map<string, SectionView>)

  /** The name looked up for a task whose section id is unknown. */
  const Uncategorized: string := "Uncategorized"

  /** The section list comes from a dictionary keyed by id. */
  predicate DistinctIds(sections: seq<Section>) {
    forall i, j :: 0 <= i < j < |sections| ==> sections[i].id != sections[j].id
  }

  predicate Distinct(names: seq<string>) {
    forall i, j :: 0 <= i < j < |names| ==> names[i] != names[j]
  }

  /** `sections.get(section_id, "Uncategorized")`. */
  function SectionName(sections: seq<Section>, sid: Option<string>): string {
    if sections == [] then Uncategorized
    else if sid == Some(sections[0].id) then sections[0].name
    else SectionName(sections[1..], sid)
  }

  /** The lookup yields the name of the section with that id, and
      "Uncategorized" when no section has it. */
  lemma {:induction false} SectionNameLookup(sections: seq<Section>, sid: Option<string>)
    ensures (forall i :: 0 <= i < |sections| ==> sid != Some(sections[i].id))
            ==> SectionName(sections, sid) == Uncategorized
    ensures DistinctIds(sections) ==>
      forall i :: 0 <= i < |sections| && sid == Some(sections[i].id) ==> SectionName(sections, sid) == sections[i].name
    ensures SectionName(sections, sid) == Uncategorized
            || exists i :: 0 <= i < |sections| && sections[i].name == SectionName(sections, sid)
  {
    if sections != [] && sid != Some(sections[0].id) {
      SectionNameLookup(sections[1..], sid);
      assert forall i :: 0 < i < |sections| ==> sections[1..][i - 1] == sections[i];
      if SectionName(sections, sid) != Uncategorized {
        var i :| 0 <= i < |sections[1..]| && sections[1..][i].name == SectionName(sections, sid);
        assert sections[i + 1].name == SectionName(sections, sid);
      }
    }
  }

  /** The keys of `{name: ... for name in sections.values()}`, in insertion
      order: each section name once, where it first occurs. */
  function SectionNames(sections: seq<Section>): (names: seq<string>)
    ensures Distinct(names)
    decreases |sections|
  {
    if sections == [] then []
    else
      var prev := SectionNames(sections[..|sections| - 1]);
      var n := sections[|sections| - 1].name;
      if n in prev then prev else prev + [n]
  }

  /** Every section name is a key, and every key is a section name. */
  lemma {:induction false} SectionNamesKeys(sections: seq<Section>)
    ensures forall i :: 0 <= i < |sections| ==> sections[i].name in SectionNames(sections)
    ensures forall n :: n in SectionNames(sections) <==> exists i :: 0 <= i < |sections| && sections[i].name == n
    decreases |sections|
  {
    if sections != [] {
      var prefix := sections[..|sections| - 1];
      SectionNamesKeys(prefix);
      assert forall i :: 0 <= i < |prefix| ==> prefix[i] == sections[i];
      forall n | n in SectionNames(sections)
        ensures exists i :: 0 <= i < |sections| && sections[i].name == n
      {
        if n in SectionNames(prefix) {
          var i :| 0 <= i < |prefix| && prefix[i].name == n;
          assert sections[i].name == n;
        } else {
          assert sections[|sections| - 1].name == n;
        }
      }
    }
  }

  /** Some section named `a` comes before every section named `b`. */
  predicate OccursBefore(sections: seq<Section>, a: string, b: string) {
    exists k :: 0 <= k < |sections| && sections[k].name == a
      && forall k' :: 0 <= k' <= k ==> sections[k'].name != b
  }

  /** The keys keep the order of first occurrence: a key listed before
      another first occurs among the sections before the other does. */
  lemma {:induction false} SectionNamesOrder(sections: seq<Section>)
    ensures forall i, j :: 0 <= i < j < |SectionNames(sections)| ==>
      OccursBefore(sections, SectionNames(sections)[i], SectionNames(sections)[j])
    decreases |sections|
  {
    if sections != [] {
      var prefix := sections[..|sections| - 1];
      var pn := SectionNames(prefix);
      var n := sections[|sections| - 1].name;
      var names := SectionNames(sections);
      assert names == if n in pn then pn else pn + [n];
      SectionNamesOrder(prefix);
      SectionNamesKeys(prefix);
      forall i, j | 0 <= i < j < |names|
        ensures OccursBefore(sections, names[i], names[j])
      {
        assert names[i] == pn[i];
        if j < |pn| {
          assert names[j] == pn[j];
          OccursBeforeExtend(sections, pn[i], pn[j]);
        } else {
          assert names[j] == n && n !in pn && pn[i] in pn;
          OccursBeforeLast(sections, pn[i]);
        }
      }
    }
  }

  /** An order among the earlier sections survives one more section. */
  lemma OccursBeforeExtend(sections: seq<Section>, a: string, b: string)
    requires sections != [] && OccursBefore(sections[..|sections| - 1], a, b)
    ensures OccursBefore(sections, a, b)
  {
    var prefix := sections[..|sections| - 1];
    var k :| 0 <= k < |prefix| && prefix[k].name == a
      && forall k' :: 0 <= k' <= k ==> prefix[k'].name != b;
    assert forall k' :: 0 <= k' <= k ==> sections[k'] == prefix[k'];
    assert sections[k].name == a;
  }

  /** A name new in the last section comes after every earlier name. */
  lemma OccursBeforeLast(sections: seq<Section>, a: string)
    requires sections != []
    requires var prefix := sections[..|sections| - 1];
      && (exists k :: 0 <= k < |prefix| && prefix[k].name == a)
      && forall k :: 0 <= k < |prefix| ==> prefix[k].name != sections[|sections| - 1].name
    ensures OccursBefore(sections, a, sections[|sections| - 1].name)
  {
    var prefix := sections[..|sections| - 1];
    var k :| 0 <= k < |prefix| && prefix[k].name == a;
    assert forall k' :: 0 <= k' <= k ==> sections[k'] == prefix[k'];
    assert sections[k].name == a;
  }

  /** The name a task is filed under. */
  function NameOf(sections: seq<Section>, t: Task): string {
    SectionName(sections, t.sectionId)
  }

  /** The contents of the incomplete tasks filed under `name`, in task order. */
  function IncompleteIn(sections: seq<Section>, tasks: seq<Task>, completed: set<string>, name: string): seq<string>
    decreases |tasks|
  {
    if tasks == [] then []
    else
      var t := tasks[|tasks| - 1];
      IncompleteIn(sections, tasks[..|tasks| - 1], completed, name)
      + (if NameOf(sections, t) == name && t.id !in completed then [t.content] else [])
  }

  /** How many tasks filed under `name` have their id in the completed set. */
  function CompletedIn(sections: seq<Section>, tasks: seq<Task>, completed: set<string>, name: string): nat
    decreases |tasks|
  {
    if tasks == [] then 0
    else
      var t := tasks[|tasks| - 1];
      CompletedIn(sections, tasks[..|tasks| - 1], completed, name)
      + (if NameOf(sections, t) == name && t.id in completed then 1 else 0)
  }

  /** Every task is filed under a name the dictionary holds. */
  predicate AllFiled(sections: seq<Section>, tasks: seq<Task>) {
    forall i :: 0 <= i < |tasks| ==> NameOf(sections, tasks[i]) in SectionNames(sections)
  }

  /** The number of tasks the views of `names` account for. */
  function Accounted(sections: seq<Section>, tasks: seq<Task>, completed: set<string>, names: seq<string>): nat
    decreases |names|
  {
    if names == [] then 0
    else
      var n := names[|names| - 1];
      Accounted(sections, tasks, completed, names[..|names| - 1])
      + CompletedIn(sections, tasks, completed, n) + |IncompleteIn(sections, tasks, completed, n)|
  }

  /** The sum over the views of a grouping of completed counts and incomplete lengths. */
  function Total(names: seq<string>, views: map<string, SectionView>): nat
    requires forall k :: 0 <= k < |names| ==> names[k] in views
    decreases |names|
  {
    if names == [] then 0
    else
      var v := views[names[|names| - 1]];
      Total(names[..|names| - 1], views) + v.completedCount + |v.incomplete|
  }

  /** One more task adds one to the views of `names` when it is filed under one of them. */
  lemma {:induction false} AccountedStep(sections: seq<Section>, tasks: seq<Task>, t: Task,
                                         completed: set<string>, names: seq<string>)
    requires Distinct(names)
    ensures Accounted(sections, tasks + [t], completed, names)
            == Accounted(sections, tasks, completed, names) + (if NameOf(sections, t) in names then 1 else 0)
    decreases |names|
  {
    assert (tasks + [t])[..|tasks|] == tasks;
    if names != [] {
      var prefix := names[..|names| - 1];
      assert Distinct(prefix);
      assert names == prefix + [names[|names| - 1]];
      AccountedStep(sections, tasks, t, completed, prefix);
    }
  }

  /** Conservation: when every task is filed, the views account for each task once. */
  lemma {:induction false} Conservation(sections: seq<Section>, tasks: seq<Task>, completed: set<string>)
    requires AllFiled(sections, tasks)
    ensures Accounted(sections, tasks, completed, SectionNames(sections)) == |tasks|
    decreases |tasks|
  {
    if tasks == [] {
      AccountedNoTasks(sections, completed, SectionNames(sections));
    } else {
      var prefix := tasks[..|tasks| - 1];
      assert tasks == prefix + [tasks[|tasks| - 1]];
      assert AllFiled(sections, prefix) by {
        forall i | 0 <= i < |prefix| ensures NameOf(sections, prefix[i]) in SectionNames(sections) {
          assert prefix[i] == tasks[i];
        }
      }
      var last := tasks[|tasks| - 1];
      var names := SectionNames(sections);
      assert NameOf(sections, last) in names;
      Conservation(sections, prefix, completed);
      AccountedStep(sections, prefix, last, completed, names);
      assert Accounted(sections, prefix + [last], completed, names) == |prefix| + 1;
    }
  }

  lemma {:induction false} AccountedNoTasks(sections: seq<Section>, completed: set<string>, names: seq<string>)
    ensures Accounted(sections, [], completed, names) == 0
    decreases |names|
  {
    if names != [] {
      AccountedNoTasks(sections, completed, names[..|names| - 1]);
    }
  }

  /** A section no task is filed under keeps its pre-filled empty view. */
  lemma {:induction false} UntouchedSectionStaysEmpty(sections: seq<Section>, tasks: seq<Task>,
                                                      completed: set<string>, name: string)
    requires forall i :: 0 <= i < |tasks| ==> NameOf(sections, tasks[i]) != name
    ensures IncompleteIn(sections, tasks, completed, name) == []
    ensures CompletedIn(sections, tasks, completed, name) == 0
    decreases |tasks|
  {
    if tasks != [] {
      var prefix := tasks[..|tasks| - 1];
      assert forall i :: 0 <= i < |prefix| ==> prefix[i] == tasks[i];
      UntouchedSectionStaysEmpty(sections, prefix, completed, name);
    }
  }

  /** A task whose section id names no section is filed under "Uncategorized",
      which the dictionary holds only when a real section has that name. */
  lemma UnknownSectionId(sections: seq<Section>, t: Task)
    requires forall i :: 0 <= i < |sections| ==> t.sectionId != Some(sections[i].id)
    ensures NameOf(sections, t) == Uncategorized
    ensures NameOf(sections, t) in SectionNames(sections)
            <==> exists i :: 0 <= i < |sections| && sections[i].name == Uncategorized
  {
    SectionNameLookup(sections, t.sectionId);
    SectionNamesKeys(sections);
  }

  /** `views` holds a view for exactly the names in `names`, each one the
      tasks of `tasks` filed under it. */
  ghost predicate ViewsMatch(sections: seq<Section>, tasks: seq<Task>, completed: set<string>,
                       names: seq<string>, views: map<string, SectionView>) {
    && (forall n :: n in views <==> n in names)
    && (forall n :: n in views ==>
          views[n] == SectionView(IncompleteIn(sections, tasks, completed, n), CompletedIn(sections, tasks, completed, n)))
  }

  /** Filing one more task updates the one view it is filed under, and that
      keeps every view in step with the longer task list. */
  lemma FileTask(sections: seq<Section>, tasks: seq<Task>, completed: set<string>,
                 names: seq<string>, views: map<string, SectionView>, t: Task, name: string,
                 views': map<string, SectionView>)
    requires ViewsMatch(sections, tasks, completed, names, views)
    requires name == NameOf(sections, t) && name in views
    requires t.id in completed ==>
      views' == views[name := views[name].(completedCount := views[name].completedCount + 1)]
    requires t.id !in completed ==>
      views' == views[name := views[name].(incomplete := views[name].incomplete + [t.content])]
    ensures ViewsMatch(sections, tasks + [t], completed, names, views')
  {
    assert (tasks + [t])[..|tasks|] == tasks;
  }

  /** The grouping loop of `fetch_tasks_by_section`. It fails with the missing
      key, as the dictionary lookup raises `KeyError`, when a task is filed
      under a name that is not a key. */
  method GroupTasks(sections: seq<Section>, tasks: seq<Task>, completed: set<string>)
    returns (r: Result<Grouping, string>)
    requires DistinctIds(sections)
    ensures r.Success? <==> AllFiled(sections, tasks)
    ensures r.Failure? ==> r.error == Uncategorized && Uncategorized !in SectionNames(sections)
    ensures r.Success? ==>
      && r.value.names == SectionNames(sections)
      && (forall n :: n in r.value.views <==> n in r.value.names)
      && (forall n :: n in r.value.views ==>
            r.value.views[n] == SectionView(IncompleteIn(sections, tasks, completed, n),
                                            CompletedIn(sections, tasks, completed, n)))
      && Total(r.value.names, r.value.views) == |tasks|
  {
    var names := SectionNames(sections);
    var views := map n | n in names :: SectionView([], 0);
    for i := 0 to |tasks|
      invariant ViewsMatch(sections, tasks[..i], completed, names, views)
      invariant AllFiled(sections, tasks[..i])
    {
      var t := tasks[i];
      assert tasks[..i + 1] == tasks[..i] + [t];
      var name := SectionName(sections, t.sectionId);
      if name !in views {
        SectionNameLookup(sections, t.sectionId);
        SectionNamesKeys(sections);
        assert NameOf(sections, tasks[i]) !in names;
        return Failure(name);
      }
      ghost var before := views;
      if t.id in completed {
        views := views[name := views[name].(completedCount := views[name].completedCount + 1)];
      } else {
        views := views[name := views[name].(incomplete := views[name].incomplete + [t.content])];
      }
      FileTask(sections, tasks[..i], completed, names, before, t, name, views);
      assert AllFiled(sections, tasks[..i + 1]) by {
        forall k | 0 <= k < i + 1 ensures NameOf(sections, tasks[k]) in names {
          if k < i { assert tasks[..i][k] == tasks[k]; }
        }
      }
    }
    assert tasks[..|tasks|] == tasks;
    Conservation(sections, tasks, completed);
    TotalIsAccounted(sections, tasks, completed, names, views);
    r := Success(Grouping(names, views));
  }

  lemma {:induction false} TotalIsAccounted(sections: seq<Section>, tasks: seq<Task>, completed: set<string>,
                                            names: seq<string>, views: map<string, SectionView>)
    requires forall k :: 0 <= k < |names| ==> names[k] in views
    requires forall n :: n in views ==>
      views[n] == SectionView(IncompleteIn(sections, tasks, completed, n), CompletedIn(sections, tasks, completed, n))
    ensures Total(names, views) == Accounted(sections, tasks, completed, names)
    decreases |names|
  {
    if names != [] {
      TotalIsAccounted(sections, tasks, completed, names[..|names| - 1], views);
    }
  }

  /** The example of one kitchen section with one of its two tasks completed. */
  lemma KitchenExample()
    ensures var sections := [Section("s1", "Kitchen")];
      var tasks := [Task("t1", "Wash dishes", Some("s1")), Task("t2", "Sweep floor", Some("s1"))];
      && SectionNames(sections) == ["Kitchen"]
      && IncompleteIn(sections, tasks, {"t1"}, "Kitchen") == ["Sweep floor"]
      && CompletedIn(sections, tasks, {"t1"}, "Kitchen") == 1
  {
    var sections := [Section("s1", "Kitchen")];
    var tasks := [Task("t1", "Wash dishes", Some("s1")), Task("t2", "Sweep floor", Some("s1"))];
    assert tasks[..1] == [tasks[0]];
    assert tasks[..1][..0] == [];
    assert NameOf(sections, tasks[0]) == "Kitchen";
    assert NameOf(sections, tasks[1]) == "Kitchen";
  }
}
