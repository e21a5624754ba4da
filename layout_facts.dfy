/**
 * What the layout of `draw_todoist_tasks` guarantees: the caps of three
 * columns and five boxes per column, the vertical stacking of the cursor, the
 * words each column shows, and where the text of a column may reach.
 */
module LayoutFacts {
  import opened TextFlow
  import opened Aggregate
  import opened Layout

  /** `c` ends above `y`: a text line together with the 5 of spacing the
      cursor adds after it, any other command by its top edge. */
  predicate Above(c: Cmd, y: int, m: Metrics) {
    if c.Text? then c.y + m.height(c.font, c.text) + 5 <= y else Top(c) <= y
  }

  /** Tops never go back up, and no text line reaches down into a later command. */
  predicate Stacked(cmds: seq<Cmd>, m: Metrics) {
    forall i, j :: 0 <= i < j < |cmds| ==> Above(cmds[i], Top(cmds[j]), m)
  }

  /** Every command starts at `lo` or lower and ends above `hi`. */
  predicate Within(cmds: seq<Cmd>, lo: int, hi: int, m: Metrics) {
    forall i :: 0 <= i < |cmds| ==> lo <= Top(cmds[i]) && Above(cmds[i], hi, m)
  }

  /** Two stacked runs, the second below the first, stack. */
  lemma StackedConcat(a: seq<Cmd>, b: seq<Cmd>, lo: int, mid: int, hi: int, m: Metrics)
    requires lo <= mid <= hi
    requires Stacked(a, m) && Within(a, lo, mid, m)
    requires Stacked(b, m) && Within(b, mid, hi, m)
    ensures Stacked(a + b, m) && Within(a + b, lo, hi, m)
  {
    var s := a + b;
    forall i, j | 0 <= i < j < |s| ensures Above(s[i], Top(s[j]), m) {
      if j < |a| {
        assert s[i] == a[i] && s[j] == a[j];
      } else if i >= |a| {
        assert s[i] == b[i - |a|] && s[j] == b[j - |a|];
      } else {
        assert s[i] == a[i] && s[j] == b[j - |a|];
        assert Above(a[i], mid, m) && mid <= Top(b[j - |a|]);
      }
    }
    forall i | 0 <= i < |s| ensures lo <= Top(s[i]) && Above(s[i], hi, m) {
      if i < |a| {
        assert s[i] == a[i] && Above(a[i], mid, m);
      } else {
        assert s[i] == b[i - |a|];
      }
    }
  }

  /** A task line at column offset `x`. */
  predicate TaskLine(c: Cmd, x: int) {
    c.Text? && c.plane == Black && c.x == x && c.font == TaskFont
  }

  /** The lines of a task are drawn one per command, in order, at `x`, each
      below the one before, the cursor moving at least 5 per line. */
  lemma {:induction false} LinesFlowShape(x: int, y: int, lines: seq<string>, m: Metrics)
    ensures var f := LinesFlow(x, y, lines, m);
      && |f.cmds| == |lines|
      && (forall i :: 0 <= i < |lines| ==> TaskLine(f.cmds[i], x) && f.cmds[i].text == lines[i])
      && Stacked(f.cmds, m) && Within(f.cmds, y, f.y, m)
      && f.y >= y + 5 * |lines|
    decreases |lines|
  {
    if lines != [] {
      var prefix := lines[..|lines| - 1];
      var line := lines[|lines| - 1];
      LinesFlowShape(x, y, prefix, m);
      var f0 := LinesFlow(x, y, prefix, m);
      var c := Text(Black, x, f0.y, line, TaskFont);
      var y' := f0.y + m.height(TaskFont, line) + 5;
      assert Within([c], f0.y, y', m);
      StackedConcat(f0.cmds, [c], y, f0.y, y', m);
      var f := LinesFlow(x, y, lines, m);
      assert f.cmds == f0.cmds + [c];
      forall i | 0 <= i < |lines| ensures TaskLine(f.cmds[i], x) && f.cmds[i].text == lines[i] {
        if i < |prefix| {
          assert f.cmds[i] == f0.cmds[i] && lines[i] == prefix[i];
        }
      }
    }
  }

  /** One task: its check box at the cursor, then its lines beside it. */
  lemma TaskFlowShape(x: int, y: int, task: string, maxWidth: int, m: Metrics)
    ensures var lines := Wrap(task, TaskWidth(m), maxWidth);
      var g := TaskFlow(x, y, task, maxWidth, m);
      && |g.cmds| == |lines| + 1
      && g.cmds[0] == Rect(Red, x, y, x + BoxSize, y + BoxSize, 2)
      && (forall i :: 1 <= i < |g.cmds| ==> TaskLine(g.cmds[i], x + BoxSize + 5) && g.cmds[i].text == lines[i - 1])
      && Stacked(g.cmds, m) && Within(g.cmds, y, g.y, m)
      && g.y >= y + 5 * |lines| + 5
  {
    var lines := Wrap(task, TaskWidth(m), maxWidth);
    var b := Boxed(x, y, lines, m);
    BoxedShape(x, y, lines, m);
    assert TaskFlow(x, y, task, maxWidth, m) == b;
  }

  /** A check box followed by the given lines, as one task draws them. */
  function Boxed(x: int, y: int, lines: seq<string>, m: Metrics): Flow {
    var f := LinesFlow(x + BoxSize + 5, y, lines, m);
    Flow([Rect(Red, x, y, x + BoxSize, y + BoxSize, 2)] + f.cmds, f.y + 5)
  }

  lemma BoxedShape(x: int, y: int, lines: seq<string>, m: Metrics)
    ensures var g := Boxed(x, y, lines, m);
      && |g.cmds| == |lines| + 1
      && g.cmds[0] == Rect(Red, x, y, x + BoxSize, y + BoxSize, 2)
      && (forall i :: 1 <= i < |g.cmds| ==> TaskLine(g.cmds[i], x + BoxSize + 5) && g.cmds[i].text == lines[i - 1])
      && Stacked(g.cmds, m) && Within(g.cmds, y, g.y, m)
      && g.y >= y + 5 * |lines| + 5
  {
    LinesFlowShape(x + BoxSize + 5, y, lines, m);
    var f := LinesFlow(x + BoxSize + 5, y, lines, m);
    var box := Rect(Red, x, y, x + BoxSize, y + BoxSize, 2);
    assert Within([box], y, y, m);
    StackedConcat([box], f.cmds, y, y, f.y + 5, m);
  }

  /** The tasks of a column stack below the cursor's start, and the cursor
      moves down at least 5 per task and 5 per wrapped line. */
  lemma {:induction false} TasksFlowStacked(x: int, y: int, tasks: seq<string>, maxWidth: int, m: Metrics)
    ensures var f := TasksFlow(x, y, tasks, maxWidth, m);
      Stacked(f.cmds, m) && Within(f.cmds, y, f.y, m) && f.y >= y + 5 * |tasks|
    decreases |tasks|
  {
    if tasks != [] {
      var prefix := tasks[..|tasks| - 1];
      TasksFlowStacked(x, y, prefix, maxWidth, m);
      var f := TasksFlow(x, y, prefix, maxWidth, m);
      TaskFlowShape(x, f.y, tasks[|tasks| - 1], maxWidth, m);
      var g := TaskFlow(x, f.y, tasks[|tasks| - 1], maxWidth, m);
      StackedConcat(f.cmds, g.cmds, y, f.y, g.y, m);
    }
  }

  /** The texts of the text commands, in drawing order. */
  function TextsOf(cmds: seq<Cmd>): seq<string>
    decreases |cmds|
  {
    if cmds == [] then []
    else
      var c := cmds[|cmds| - 1];
      TextsOf(cmds[..|cmds| - 1]) + (if c.Text? then [c.text] else [])
  }

  /** The number of check boxes. */
  function BoxCount(cmds: seq<Cmd>): nat
    decreases |cmds|
  {
    if cmds == [] then 0
    else BoxCount(cmds[..|cmds| - 1]) + (if cmds[|cmds| - 1].Rect? then 1 else 0)
  }

  lemma {:induction false} TextsOfConcat(a: seq<Cmd>, b: seq<Cmd>)
    ensures TextsOf(a + b) == TextsOf(a) + TextsOf(b)
    ensures BoxCount(a + b) == BoxCount(a) + BoxCount(b)
    decreases |b|
  {
    if b != [] {
      var b0 := b[..|b| - 1];
      assert (a + b)[..|a + b| - 1] == a + b0;
      var c := b[|b| - 1];
      assert (a + b)[|a + b| - 1] == c;
      TextsOfConcat(a, b0);
      var t := if c.Text? then [c.text] else [];
      assert TextsOf(a + b) == TextsOf(a + b0) + t;
      assert TextsOf(b) == TextsOf(b0) + t;
      assert TextsOf(a + b0) + t == TextsOf(a) + (TextsOf(b0) + t);
    } else {
      assert a + b == a;
    }
  }

  /** The commands of a sequence of task lines are the lines, and no box. */
  lemma {:induction false} TextsOfLines(cmds: seq<Cmd>, lines: seq<string>, x: int)
    requires |cmds| == |lines|
    requires forall i :: 0 <= i < |lines| ==> TaskLine(cmds[i], x) && cmds[i].text == lines[i]
    ensures TextsOf(cmds) == lines && BoxCount(cmds) == 0
    decreases |cmds|
  {
    if cmds != [] {
      TextsOfLines(cmds[..|cmds| - 1], lines[..|lines| - 1], x);
    }
  }

  /** The lines of wrapping each task in turn, one after another. */
  function WrapAll(tasks: seq<string>, measure: string -> nat, maxWidth: int): seq<string>
    decreases |tasks|
  {
    if tasks == [] then []
    else WrapAll(tasks[..|tasks| - 1], measure, maxWidth) + Wrap(tasks[|tasks| - 1], measure, maxWidth)
  }

  /** The words of each task in turn, one after another. */
  function WordsOfTasks(tasks: seq<string>): seq<string>
    decreases |tasks|
  {
    if tasks == [] then [] else WordsOfTasks(tasks[..|tasks| - 1]) + Words(tasks[|tasks| - 1])
  }

  /** A task's texts are its wrapped lines, next to one box. */
  lemma TaskFlowTexts(x: int, y: int, task: string, maxWidth: int, m: Metrics)
    ensures var g := TaskFlow(x, y, task, maxWidth, m);
      TextsOf(g.cmds) == Wrap(task, TaskWidth(m), maxWidth) && BoxCount(g.cmds) == 1
  {
    var lines := Wrap(task, TaskWidth(m), maxWidth);
    LinesFlowShape(x + BoxSize + 5, y, lines, m);
    var f := LinesFlow(x + BoxSize + 5, y, lines, m);
    TextsOfLines(f.cmds, lines, x + BoxSize + 5);
    var box := Rect(Red, x, y, x + BoxSize, y + BoxSize, 2);
    assert [box][..0] == [];
    TextsOfConcat([box], f.cmds);
  }

  /** A column's texts are the wrapped lines of its tasks, and it draws one box per task. */
  lemma {:induction false} TasksFlowTexts(x: int, y: int, tasks: seq<string>, maxWidth: int, m: Metrics)
    ensures var f := TasksFlow(x, y, tasks, maxWidth, m);
      TextsOf(f.cmds) == WrapAll(tasks, TaskWidth(m), maxWidth) && BoxCount(f.cmds) == |tasks|
    decreases |tasks|
  {
    if tasks != [] {
      var prefix := tasks[..|tasks| - 1];
      var task := tasks[|tasks| - 1];
      TasksFlowTexts(x, y, prefix, maxWidth, m);
      var f := TasksFlow(x, y, prefix, maxWidth, m);
      TaskFlowTexts(x, f.y, task, maxWidth, m);
      var g := TaskFlow(x, f.y, task, maxWidth, m);
      TextsOfConcat(f.cmds, g.cmds);
    }
  }

  lemma {:induction false} WordsOfLinesConcat(a: seq<string>, b: seq<string>)
    ensures WordsOfLines(a + b) == WordsOfLines(a) + WordsOfLines(b)
    decreases |b|
  {
    if b != [] {
      var b0 := b[..|b| - 1];
      assert (a + b)[..|a + b| - 1] == a + b0;
      var line := b[|b| - 1];
      assert (a + b)[|a + b| - 1] == line;
      WordsOfLinesConcat(a, b0);
      assert WordsOfLines(a + b) == WordsOfLines(a + b0) + Words(line);
      assert WordsOfLines(b) == WordsOfLines(b0) + Words(line);
    } else {
      assert a + b == a;
    }
  }

  /** No word of a shown task is lost, repeated or split when its lines are drawn. */
  lemma {:induction false} WrapAllCovers(tasks: seq<string>, measure: string -> nat, maxWidth: int)
    ensures WordsOfLines(WrapAll(tasks, measure, maxWidth)) == WordsOfTasks(tasks)
    decreases |tasks|
  {
    if tasks != [] {
      var prefix := tasks[..|tasks| - 1];
      var task := tasks[|tasks| - 1];
      WrapAllCovers(prefix, measure, maxWidth);
      WordsOfLinesConcat(WrapAll(prefix, measure, maxWidth), Wrap(task, measure, maxWidth));
      WrapCoversWords(task, measure, maxWidth);
    }
  }

  /** The words a column shows, in drawing order, are those of its first five
      incomplete tasks. */
  lemma ColumnWords(idx: nat, name: string, view: SectionView, yOffset: int, canvasWidth: nat, m: Metrics)
    ensures var f := TasksFlow(ColumnX(idx, canvasWidth), TasksTop(name, yOffset, m), Shown(view),
                               TaskMaxWidth(canvasWidth), m);
      WordsOfLines(TextsOf(f.cmds)) == WordsOfTasks(Shown(view))
  {
    TasksFlowTexts(ColumnX(idx, canvasWidth), TasksTop(name, yOffset, m), Shown(view), TaskMaxWidth(canvasWidth), m);
    WrapAllCovers(Shown(view), TaskWidth(m), TaskMaxWidth(canvasWidth));
  }

  /** Where a command of a column's task list may be and reach: boxes at the
      column's left edge, lines 17 to the right of it, each line within the
      wrap width unless it is a single word or empty. */
  predicate Placed(c: Cmd, x: int, maxWidth: int, m: Metrics) {
    && (c.Rect? ==> c == Rect(Red, x, c.y0, x + BoxSize, c.y0 + BoxSize, 2))
    && (c.Text? ==> TaskLine(c, x + BoxSize + 5)
                    && (m.width(TaskFont, c.text) <= maxWidth || c.text == "" || IsWord(c.text)))
    && !c.Line?
  }

  predicate AllPlaced(cmds: seq<Cmd>, x: int, maxWidth: int, m: Metrics) {
    forall i :: 0 <= i < |cmds| ==> Placed(cmds[i], x, maxWidth, m)
  }

  lemma TaskFlowPlaced(x: int, y: int, task: string, maxWidth: int, m: Metrics)
    ensures AllPlaced(TaskFlow(x, y, task, maxWidth, m).cmds, x, maxWidth, m)
  {
    var lines := Wrap(task, TaskWidth(m), maxWidth);
    TaskFlowShape(x, y, task, maxWidth, m);
    WrapWidth(task, TaskWidth(m), maxWidth);
    var g := TaskFlow(x, y, task, maxWidth, m);
    forall i | 0 <= i < |g.cmds| ensures Placed(g.cmds[i], x, maxWidth, m) {
      if i > 0 {
        var line := lines[i - 1];
        assert g.cmds[i].text == line;
        assert TaskWidth(m)(line) == m.width(TaskFont, line);
        if line in Words(task) {
          var k :| 0 <= k < |Words(task)| && Words(task)[k] == line;
          assert IsWord(Words(task)[k]);
        }
      }
    }
  }

  lemma {:induction false} TasksFlowPlaced(x: int, y: int, tasks: seq<string>, maxWidth: int, m: Metrics)
    ensures AllPlaced(TasksFlow(x, y, tasks, maxWidth, m).cmds, x, maxWidth, m)
    decreases |tasks|
  {
    if tasks != [] {
      var prefix := tasks[..|tasks| - 1];
      TasksFlowPlaced(x, y, prefix, maxWidth, m);
      var f := TasksFlow(x, y, prefix, maxWidth, m);
      TaskFlowPlaced(x, f.y, tasks[|tasks| - 1], maxWidth, m);
      var g := TaskFlow(x, f.y, tasks[|tasks| - 1], maxWidth, m);
      var all := f.cmds + g.cmds;
      assert TasksFlow(x, y, tasks, maxWidth, m).cmds == all;
      forall i | 0 <= i < |all| ensures Placed(all[i], x, maxWidth, m) {
        if i < |f.cmds| {
          assert all[i] == f.cmds[i];
          assert Placed(f.cmds[i], x, maxWidth, m);
        } else {
          assert all[i] == g.cmds[i - |f.cmds|];
          assert Placed(g.cmds[i - |f.cmds|], x, maxWidth, m);
        }
      }
    }
  }

  /** Columns sit side by side, one section width apart. */
  lemma NextColumn(idx: nat, canvasWidth: nat)
    ensures ColumnX(idx + 1, canvasWidth) == ColumnX(idx, canvasWidth) + SectionWidth(canvasWidth)
  {
    var sw := SectionWidth(canvasWidth);
    assert (idx + 1) * sw == idx * sw + sw;
  }

  /** What a column whose left edge is `x` may draw, the next column starting at `next`. */
  predicate InColumn(c: Cmd, x: int, next: int, m: Metrics) {
    && Left(c) >= x
    && (c.Text? && c.font == TaskFont ==>
          && c.x == x + BoxSize + 5
          && (c.x + m.width(TaskFont, c.text) <= next - 23 || c.text == "" || IsWord(c.text)))
  }

  predicate AllInColumn(cmds: seq<Cmd>, x: int, next: int, m: Metrics) {
    forall i :: 0 <= i < |cmds| ==> InColumn(cmds[i], x, next, m)
  }

  /** A column stays in its own third: nothing of it lies left of its x; its
      underline ends 10 short of the next column; a task line ends at least 23
      short of the next column unless it is one word too wide to wrap, or empty. */
  lemma ColumnFits(idx: nat, name: string, view: SectionView, yOffset: int, canvasWidth: nat, m: Metrics)
    ensures var cmds := ColumnCmds(idx, name, view, yOffset, canvasWidth, m);
      var x := ColumnX(idx, canvasWidth);
      var next := ColumnX(idx + 1, canvasWidth);
      && AllInColumn(cmds, x, next, m)
      && cmds[1].Line? && cmds[1].x0 == x && cmds[1].x1 == next - 10
  {
    var x := ColumnX(idx, canvasWidth);
    var next := ColumnX(idx + 1, canvasWidth);
    var maxWidth := TaskMaxWidth(canvasWidth);
    NextColumn(idx, canvasWidth);
    assert x + BoxSize + 5 + maxWidth == next - 23;
    var head := ColumnHead(idx, name, view, yOffset, canvasWidth, m);
    var f := TasksFlow(x, TasksTop(name, yOffset, m), Shown(view), maxWidth, m);
    TasksFlowPlaced(x, TasksTop(name, yOffset, m), Shown(view), maxWidth, m);
    assert AllInColumn(f.cmds, x, next, m) by {
      forall i | 0 <= i < |f.cmds| ensures InColumn(f.cmds[i], x, next, m) {
        assert Placed(f.cmds[i], x, maxWidth, m);
      }
    }
    assert AllInColumn(head, x, next, m);
    InColumnConcat(head, f.cmds, x, next, m);
  }

  lemma InColumnConcat(a: seq<Cmd>, b: seq<Cmd>, x: int, next: int, m: Metrics)
    requires AllInColumn(a, x, next, m) && AllInColumn(b, x, next, m)
    ensures AllInColumn(a + b, x, next, m)
  {
    forall i | 0 <= i < |a + b| ensures InColumn((a + b)[i], x, next, m) {
      if i < |a| { assert (a + b)[i] == a[i]; } else { assert (a + b)[i] == b[i - |a|]; }
    }
  }

  /** Every command starts at `y` or lower. */
  predicate AllBelow(cmds: seq<Cmd>, y: int) {
    forall i :: 0 <= i < |cmds| ==> Top(cmds[i]) >= y
  }

  lemma BelowConcat(a: seq<Cmd>, b: seq<Cmd>, y: int)
    requires AllBelow(a, y) && AllBelow(b, y)
    ensures AllBelow(a + b, y)
  {
    forall i | 0 <= i < |a + b| ensures Top((a + b)[i]) >= y {
      if i < |a| { assert (a + b)[i] == a[i]; } else { assert (a + b)[i] == b[i - |a|]; }
    }
  }

  /** Each column's task list is stacked, starting 40 below the header's
      top plus its height, the cursor moving at least 5 per task. */
  lemma ColumnStacked(idx: nat, name: string, view: SectionView, yOffset: int, canvasWidth: nat, m: Metrics)
    ensures var f := TasksFlow(ColumnX(idx, canvasWidth), TasksTop(name, yOffset, m), Shown(view), TaskMaxWidth(canvasWidth), m);
      && Stacked(f.cmds, m) && Within(f.cmds, TasksTop(name, yOffset, m), f.y, m)
      && f.y >= TasksTop(name, yOffset, m) + 5 * Min(MaxTasks, |view.incomplete|)
  {
    TasksFlowStacked(ColumnX(idx, canvasWidth), TasksTop(name, yOffset, m), Shown(view), TaskMaxWidth(canvasWidth), m);
  }

  /** Nothing of a column lies above `yOffset`. */
  lemma ColumnBelow(idx: nat, name: string, view: SectionView, yOffset: int, canvasWidth: nat, m: Metrics)
    ensures AllBelow(ColumnCmds(idx, name, view, yOffset, canvasWidth, m), yOffset)
  {
    var x := ColumnX(idx, canvasWidth);
    var top := TasksTop(name, yOffset, m);
    var head := ColumnHead(idx, name, view, yOffset, canvasWidth, m);
    TasksFlowStacked(x, top, Shown(view), TaskMaxWidth(canvasWidth), m);
    var f := TasksFlow(x, top, Shown(view), TaskMaxWidth(canvasWidth), m);
    assert AllBelow(f.cmds, yOffset) by {
      forall i | 0 <= i < |f.cmds| ensures Top(f.cmds[i]) >= yOffset {
        assert top <= Top(f.cmds[i]);
      }
    }
    assert AllBelow(head, yOffset);
    BelowConcat(head, f.cmds, yOffset);
  }

  /** The title, the date and the tally are stacked and all end above `yOffset`. */
  lemma HeaderBand(canvasWidth: nat, date: string, count: nat, m: Metrics)
    ensures var h := HeaderPositions(canvasWidth, date, count, m);
      var cmds := HeaderCmds(canvasWidth, date, count, m);
      Stacked(cmds, m) && Within(cmds, TitleY, h.yOffset, m)
  {
  }

  /** The sum of the first `n` columns' box counts: at most five per column. */
  function ShownBoxes(items: seq<(string, SectionView)>, n: nat): nat
    requires n <= |items|
  {
    if n == 0 then 0 else ShownBoxes(items, n - 1) + Min(MaxTasks, |items[n - 1].1.incomplete|)
  }

  lemma {:induction false} NoBoxes(cmds: seq<Cmd>)
    requires forall i :: 0 <= i < |cmds| ==> !cmds[i].Rect?
    ensures BoxCount(cmds) == 0
    decreases |cmds|
  {
    if cmds != [] {
      NoBoxes(cmds[..|cmds| - 1]);
    }
  }

  lemma ColumnBoxes(idx: nat, name: string, view: SectionView, yOffset: int, canvasWidth: nat, m: Metrics)
    ensures BoxCount(ColumnCmds(idx, name, view, yOffset, canvasWidth, m)) == Min(MaxTasks, |view.incomplete|)
  {
    var head := ColumnHead(idx, name, view, yOffset, canvasWidth, m);
    var f := TasksFlow(ColumnX(idx, canvasWidth), TasksTop(name, yOffset, m), Shown(view), TaskMaxWidth(canvasWidth), m);
    TasksFlowTexts(ColumnX(idx, canvasWidth), TasksTop(name, yOffset, m), Shown(view), TaskMaxWidth(canvasWidth), m);
    NoBoxes(head);
    TextsOfConcat(head, f.cmds);
  }

  lemma {:induction false} ColumnsBoxes(items: seq<(string, SectionView)>, n: nat, yOffset: int, canvasWidth: nat, m: Metrics)
    requires n <= |items|
    ensures BoxCount(ColumnsCmds(items, n, yOffset, canvasWidth, m)) == ShownBoxes(items, n)
  {
    if n > 0 {
      var k := n - 1;
      ColumnsBoxes(items, k, yOffset, canvasWidth, m);
      ColumnsBoxesStep(items, k, yOffset, canvasWidth, m);
    }
  }

  /** One more column adds the boxes of its shown tasks. */
  lemma ColumnsBoxesStep(items: seq<(string, SectionView)>, k: nat, yOffset: int, canvasWidth: nat, m: Metrics)
    requires k < |items|
    requires BoxCount(ColumnsCmds(items, k, yOffset, canvasWidth, m)) == ShownBoxes(items, k)
    ensures BoxCount(ColumnsCmds(items, k + 1, yOffset, canvasWidth, m)) == ShownBoxes(items, k + 1)
  {
    var name := items[k].0;
    var view := items[k].1;
    ColumnBoxes(k, name, view, yOffset, canvasWidth, m);
    TextsOfConcat(ColumnsCmds(items, k, yOffset, canvasWidth, m), ColumnCmds(k, name, view, yOffset, canvasWidth, m));
  }

  /** The page draws one box for each of the first five incomplete tasks of
      each of the first three sections, and no other box. */
  lemma PageBoxes(canvasWidth: nat, canvasHeight: nat, count: nat, date: string,
                  items: seq<(string, SectionView)>, weather: string, m: Metrics)
    ensures BoxCount(Page(canvasWidth, canvasHeight, count, date, items, weather, m))
            == ShownBoxes(items, Min(MaxColumns, |items|))
    ensures ShownBoxes(items, Min(MaxColumns, |items|)) <= MaxColumns * MaxTasks
  {
    var h := HeaderPositions(canvasWidth, date, count, m);
    var n := Min(MaxColumns, |items|);
    var header := HeaderCmds(canvasWidth, date, count, m);
    var columns := ColumnsCmds(items, n, h.yOffset, canvasWidth, m);
    var footer := FooterCmds(canvasWidth, canvasHeight, weather, m);
    assert BoxCount(header + columns + footer) == ShownBoxes(items, n) by {
      ColumnsBoxes(items, n, h.yOffset, canvasWidth, m);
      HeaderNoBoxes(canvasWidth, date, count, m);
      FooterNoBoxes(canvasWidth, canvasHeight, weather, m);
      PartsBoxes(header, columns, footer);
    }
    PageSplit(canvasWidth, canvasHeight, count, date, items, weather, m);
    BoxesBound(items, n);
  }

  /** The page is the header, then the columns of the first three sections,
      then the footer. */
  lemma PageSplit(canvasWidth: nat, canvasHeight: nat, count: nat, date: string,
                  items: seq<(string, SectionView)>, weather: string, m: Metrics)
    ensures var h := HeaderPositions(canvasWidth, date, count, m);
      Page(canvasWidth, canvasHeight, count, date, items, weather, m)
      == HeaderCmds(canvasWidth, date, count, m)
         + ColumnsCmds(items, Min(MaxColumns, |items|), h.yOffset, canvasWidth, m)
         + FooterCmds(canvasWidth, canvasHeight, weather, m)
  {
  }

  lemma HeaderNoBoxes(canvasWidth: nat, date: string, count: nat, m: Metrics)
    ensures BoxCount(HeaderCmds(canvasWidth, date, count, m)) == 0
  {
    NoBoxes(HeaderCmds(canvasWidth, date, count, m));
  }

  lemma FooterNoBoxes(canvasWidth: nat, canvasHeight: nat, weather: string, m: Metrics)
    ensures BoxCount(FooterCmds(canvasWidth, canvasHeight, weather, m)) == 0
  {
    NoBoxes(FooterCmds(canvasWidth, canvasHeight, weather, m));
  }

  lemma PartsBoxes(a: seq<Cmd>, b: seq<Cmd>, c: seq<Cmd>)
    ensures BoxCount(a + b + c) == BoxCount(a) + BoxCount(b) + BoxCount(c)
  {
    TextsOfConcat(a, b);
    TextsOfConcat(a + b, c);
  }

  lemma {:induction false} BoxesBound(items: seq<(string, SectionView)>, n: nat)
    requires n <= |items|
    ensures ShownBoxes(items, n) <= n * MaxTasks
  {
    if n > 0 {
      BoxesBound(items, n - 1);
    }
  }

  /** The header ends above the section band, and every column lies below its top. */
  lemma PageBands(canvasWidth: nat, canvasHeight: nat, count: nat, date: string,
                  items: seq<(string, SectionView)>, weather: string, m: Metrics)
    ensures var h := HeaderPositions(canvasWidth, date, count, m);
      var columns := ColumnsCmds(items, Min(MaxColumns, |items|), h.yOffset, canvasWidth, m);
      && Within(HeaderCmds(canvasWidth, date, count, m), TitleY, h.yOffset, m)
      && AllBelow(columns, h.yOffset)
  {
    var h := HeaderPositions(canvasWidth, date, count, m);
    HeaderBand(canvasWidth, date, count, m);
    ColumnsBelow(items, Min(MaxColumns, |items|), h.yOffset, canvasWidth, m);
  }

  lemma {:induction false} ColumnsBelow(items: seq<(string, SectionView)>, n: nat, yOffset: int, canvasWidth: nat, m: Metrics)
    requires n <= |items|
    ensures AllBelow(ColumnsCmds(items, n, yOffset, canvasWidth, m), yOffset)
  {
    if n > 0 {
      var k := n - 1;
      ColumnsBelow(items, k, yOffset, canvasWidth, m);
      ColumnsBelowStep(items, k, yOffset, canvasWidth, m);
    }
  }

  /** One more column keeps every command of the columns below their top. */
  lemma ColumnsBelowStep(items: seq<(string, SectionView)>, k: nat, yOffset: int, canvasWidth: nat, m: Metrics)
    requires k < |items|
    requires AllBelow(ColumnsCmds(items, k, yOffset, canvasWidth, m), yOffset)
    ensures AllBelow(ColumnsCmds(items, k + 1, yOffset, canvasWidth, m), yOffset)
  {
    var name := items[k].0;
    var view := items[k].1;
    ColumnBelow(k, name, view, yOffset, canvasWidth, m);
    BelowConcat(ColumnsCmds(items, k, yOffset, canvasWidth, m), ColumnCmds(k, name, view, yOffset, canvasWidth, m), yOffset);
  }
}
