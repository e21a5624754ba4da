# Family chores board: a verified model of its core

`fam_chores.py` drives an e-ink board that shows a household's chores. Each
cycle does four things:

- it loads a weekly tally of completed chores and resets it on Mondays;
- it counts each newly completed task exactly once;
- it groups the project's active tasks by section;
- it lays out a title, a date, the tally, up to three section columns of up
  to five wrapped tasks each, and a weather footer.

The model covers these pieces. The HTTP responses, the clock, the tally
file and the font metrics become inputs.

- `TallyStore` (`tally.dfy`) holds the tally record and its zero value. It
  models the Monday reset decision of `load_tally` and the counting step of
  `fetch_tasks_by_section` as functions, with lemmas about several cycles.
- `Chores` (`chores.dfy`) holds the cycle of `fetch_tasks_by_section`. It
  loads the tally, updates the record field by field in a method proved
  equal to the counting function, saves it, and then groups the tasks.
- `Aggregate` (`aggregate.dfy`) holds the grouping loop, `GroupTasks`. The
  dictionary it fills becomes an insertion-ordered list of names plus a map.
  Each iteration either bumps a section's completed count or appends the
  task's content. On a task whose section name is not in the dictionary,
  the method returns a failure, where the program raises `KeyError`. It is
  proved against reference functions that filter the task list name by name.
- `TextFlow` (`textflow.dfy`) holds `wrap_text`: the method `WrapText`, with
  Python `str.split()`/`str.strip()` over Python's whitespace set. It is
  proved equal to a fold, `Wrap`, that carries the lemmas on coverage,
  width, greediness and the leading empty line.
- `Layout` (`layout.dfy`) holds `draw_todoist_tasks`. The drawing becomes a
  sequence of draw commands (text, line, rectangle on the black or red
  plane). Methods advance the same cursors as the program and are proved
  equal to the function `Page`.
- `LayoutFacts` (`layout_facts.dfy`) states what the layout guarantees:
  - the section and task caps;
  - boxes per task;
  - vertical stacking;
  - the words each column shows;
  - the horizontal extent of each column.

Three behaviours of the code that the model keeps:

- **No "Uncategorized" entry.** `"Uncategorized"` is looked up at line 111
  but never inserted at line 108, so a task of an unknown section raises
  `KeyError`. The model returns a failure there. `UnknownSectionId` shows
  the one exception: a real section named "Uncategorized" takes such a
  task.
- **Leading empty line.** When the first word alone is wider than the
  limit, the code first emits the still empty current line, so the
  overlong first word is preceded by `""` (line 0, see
  `WrapLeadingEmptyLine`).
- **When the tally is saved.** The tally is saved before the grouping, on
  every cycle whose task request succeeds, whether or not any new
  completion was seen.
- **The reset cannot tell one Monday from another.** The stamp is a weekday
  name, rewritten on every cycle (line 99). A tally last stamped "Monday" a
  week or more ago is therefore not reset on the next Monday, and a week
  with no cycle on a Monday gets no reset at all
  (`NoResetWithoutFreshMonday`). "The same day" in the lemmas below means
  the same weekday name.

## Model

| member | source | states |
|---|---|---|
| TallyStore.ZeroTally | fam_chores.py:26-27 | the stand-in for a missing file or one that is not valid JSON has count 0, no counted ids and no stamp |
| TallyStore.MaybeReset | fam_chores.py:33-35 | on a Monday with a stamp other than "Monday" the tally becomes {0, {}, "Monday"}; on every other day, or when already stamped "Monday", it is unchanged |
| TallyStore.LoadTally | fam_chores.py:23-38 | a missing file gives the zero value, or the Monday reset of it; a stored tally goes through the reset decision |
| TallyStore.CountCompletions | fam_chores.py:93-99 | the count grows by exactly the number of completed ids not yet counted; the counted set becomes the union; the stamp becomes today's weekday whatever it was |
| TallyStore.CountMonotone | fam_chores.py:95-97 | the count never decreases, and it stays the same exactly when every completed id was already counted |
| TallyStore.CountIdempotent | fam_chores.py:95-99 | counting the same completion set a second time changes nothing |
| TallyStore.CountKeepsConsistent | fam_chores.py:95-98 | if the count equalled the number of counted ids, it still does after counting |
| TallyStore.ResetConsistent | fam_chores.py:26-35 | the zero value and a reset tally have count equal to the number of counted ids, and a reset decision keeps that |
| TallyStore.ResetOncePerDay | fam_chores.py:33-35 | loading twice with the same weekday name resets at most once |
| TallyStore.NoResetWithoutFreshMonday | fam_chores.py:33-35 | a load on a day other than Monday, or on a Monday when the stamp already says "Monday" (however old), returns the stored tally unchanged |
| TallyStore.ReloadAfterCountIsStable | fam_chores.py:32-35 | reloading a just-counted tally on the same day (as the drawing step does) returns it unchanged, Mondays included |
| TallyStore.SecondCycleSameDay | fam_chores.py:93-99 | a second cycle on the same day with the same completions leaves the saved tally as the first cycle left it |
| TallyStore.MondayStartsNewWeek | fam_chores.py:32-35 | the first Monday cycle after a non-Monday stamp counts only this cycle's completions, from zero |
| TallyStore.FirstCycleExample | fam_chores.py:93-99 | with no file and one completed id "t1" the saved tally is {1, {"t1"}, today} |
| Chores.CountStep | fam_chores.py:95-99 | the field-by-field update of the loaded record yields the counting step's tally |
| Chores.FetchTasksBySection | fam_chores.py:91-117 | the saved tally is the load-then-count tally (count grows by the new completions, ids unioned, stamped today); reloading it the same day gives it back; the grouping succeeds exactly when every task's section name is a key; on success each key's view holds that section's incomplete contents in order and its completed count, and the views account for every task |
| Aggregate.SectionNameLookup | fam_chores.py:110-111 | a task's section name is the name of the section with its id, or "Uncategorized" when no section has that id |
| Aggregate.SectionNames | fam_chores.py:108 | the dictionary's keys hold no name twice |
| Aggregate.SectionNamesOrder | fam_chores.py:108 | the keys are in insertion order: a key listed before another first occurs among the sections before the other does, which fixes which three columns are drawn and in what order |
| Aggregate.SectionNamesKeys | fam_chores.py:108 | a name is a key exactly when some section has it |
| Aggregate.FileTask | fam_chores.py:112-115 | one iteration files the task into its section's view and leaves every other view as the reference functions say |
| Aggregate.GroupTasks | fam_chores.py:108-115 | fails with "Uncategorized" exactly when some task's section name is not a key, and then "Uncategorized" is not a key; otherwise the keys are the section names, each view holds that section's incomplete task contents in input order and the number of its completed tasks, and the counts plus list lengths sum to the number of tasks |
| Aggregate.AccountedStep | fam_chores.py:112-115 | one more task adds one to the views' total when it is filed under a key, and nothing otherwise |
| Aggregate.Conservation | fam_chores.py:108-115 | when every task is filed, the completed counts plus the incomplete lengths over all keys equal the number of tasks |
| Aggregate.UntouchedSectionStaysEmpty | fam_chores.py:108-115 | a section no task is filed under keeps its pre-filled view of no contents and count 0 |
| Aggregate.UnknownSectionId | fam_chores.py:108-113 | a task whose section id matches no section is filed under "Uncategorized", which is a key only when a real section has that name |
| Aggregate.TotalIsAccounted | fam_chores.py:108-115 | the totals of the built views equal the reference count of filed tasks |
| Aggregate.KitchenExample | fam_chores.py:108-115 | one section "Kitchen" with two tasks, one of them completed, gives incomplete ["Sweep floor"] and completed count 1 |
| TextFlow.Words | fam_chores.py:263 | every piece of `text.split()` is non-empty and free of whitespace |
| TextFlow.WordsEmptyIffAllSpace | fam_chores.py:263 | splitting finds no word exactly when the text is empty or all whitespace |
| TextFlow.WordsOfWord | fam_chores.py:263 | a single word splits into itself |
| TextFlow.WordsOfSpaces | fam_chores.py:263 | a string of whitespace only splits into no words |
| TextFlow.WordsJoin | fam_chores.py:263 | splitting `a + [c] + b` at any whitespace character `c` gives the words of `a` followed by those of `b`; with the two rows above this fixes `text.split()` on every string |
| TextFlow.SplitExample | fam_chores.py:263 | `" a\tb  ".split()` is `["a", "b"]`: tabs and runs of spaces separate, leading and trailing whitespace yields nothing |
| TextFlow.CandidateShape | fam_chores.py:267 | the stripped candidate is the word alone when the current line is empty, and otherwise the line, a space and the word |
| TextFlow.AdoptKeepsInv | fam_chores.py:268-269 | adopting a candidate that fits keeps the loop invariant (coverage, empty-line rule, width rule, greediness) |
| TextFlow.RejectKeepsInv | fam_chores.py:270-272 | closing the line when the candidate does not fit keeps the loop invariant |
| TextFlow.RejectEmptyLine | fam_chores.py:270-272 | the closed line is empty only when it is the first line and the first word does not fit |
| TextFlow.RunKeepsInv | fam_chores.py:266-272 | after any prefix of the words, the loop state satisfies the invariant |
| TextFlow.FlushedWords | fam_chores.py:273-275 | after the final append, the words of the lines, line after line, are the input words |
| TextFlow.WrapEmptyIffNoWords | fam_chores.py:263-275 | the output is empty exactly when the text is empty or all whitespace |
| TextFlow.WrapCoversWords | fam_chores.py:263-275 | the words of the output lines, in order, are exactly `text.split()`: none dropped, repeated or split |
| TextFlow.WrapWidth | fam_chores.py:266-275 | every output line fits the width, unless it is one word of the text on its own or the leading empty line |
| TextFlow.WrapLeadingEmptyLine | fam_chores.py:266-275 | text with words gives a non-empty output whose line 0 is "" exactly when the first word alone is too wide; no other line is empty |
| TextFlow.WrapGreedy | fam_chores.py:266-272 | no output line could have taken the first word of the line after it |
| TextFlow.WrapText | fam_chores.py:259-275 | the loop over the words with its `current_line` and final append returns the wrap of the text |
| Layout.Center | fam_chores.py:171 | `(W - w) // 2` leaves the two margins equal or the right one larger by 1 |
| Layout.HeaderPositions | fam_chores.py:171-194 | title, date and tally are each centred within 1; date_y = 10 + th + 10, tally_y = date_y + dh + 20, y_offset = tally_y + tallyh + 20, strictly increasing |
| Layout.FooterCmds | fam_chores.py:242-249 | a red rule at H - 70 from x = 10 to W - 10, then the weather text 10 below it, centred within 1 |
| Layout.Render | fam_chores.py:158-249 | the draw calls, in order, are the page: header, the columns of the first three sections, footer |
| Layout.DrawHeader | fam_chores.py:166-194 | the three header texts and the section band's top, as the header positions say |
| Layout.DrawColumns | fam_chores.py:201-205 | the section loop stops after three sections and draws the first `min(3, n)` columns in order |
| Layout.AppendColumn | fam_chores.py:203-239 | one pass of the section loop appends column `idx` after the columns before it |
| Layout.DrawColumn | fam_chores.py:207-239 | a column is its name, its underline, its completed count, then its first five incomplete tasks from y_offset + hh + 40 at width W // 3 - 40 |
| Layout.DrawTasks | fam_chores.py:225-239 | the task loop draws the shown tasks one after another, each from the cursor the previous one left |
| Layout.DrawFooter | fam_chores.py:241-249 | the footer commands |
| Layout.DrawTask | fam_chores.py:227-239 | one task is its box at the cursor, then its wrapped lines 17 to the right, the cursor moving by each line's height plus 5, then 5 more |
| LayoutFacts.StackedConcat | fam_chores.py:235-239 | two stacked runs, one ending above where the other starts, form one stacked run |
| LayoutFacts.LinesFlowShape | fam_chores.py:235-237 | a task's lines are drawn in order at a fixed x, each below the one before, the cursor moving at least 5 per line |
| LayoutFacts.TaskFlowShape | fam_chores.py:227-239 | a task is one red 12×12 box at the cursor, then one text per wrapped line, stacked, the cursor moving at least 5 per line plus 5 |
| LayoutFacts.TasksFlowStacked | fam_chores.py:225-239 | a column's tasks are stacked below the cursor's start, which moves at least 5 per task |
| LayoutFacts.TaskFlowTexts | fam_chores.py:227-237 | a task's texts are its wrapped lines, next to exactly one box |
| LayoutFacts.TasksFlowTexts | fam_chores.py:226-237 | a column's texts are the wrapped lines of its tasks in order, with one box per task |
| LayoutFacts.WrapAllCovers | fam_chores.py:226-227 | the words of a column's drawn lines are the words of its tasks, in order |
| LayoutFacts.ColumnWords | fam_chores.py:226-237 | a column shows exactly the words of its first five incomplete tasks, in order |
| LayoutFacts.TasksFlowPlaced | fam_chores.py:226-237 | every box of a column is at its left edge, and every task line is 17 to the right of it and fits the wrap width unless it is one word or empty |
| LayoutFacts.NextColumn | fam_chores.py:201-207 | column `idx + 1` starts one section width to the right of column `idx` |
| LayoutFacts.ColumnFits | fam_chores.py:207-237 | nothing of a column lies left of its x; its underline ends 10 short of the next column; a task line ends 23 short of it unless it is one word or empty |
| LayoutFacts.ColumnStacked | fam_chores.py:225-239 | a column's tasks are stacked from y_offset + hh + 40, the cursor moving at least 5 per shown task |
| LayoutFacts.ColumnBelow | fam_chores.py:209-239 | nothing of a column lies above y_offset |
| LayoutFacts.HeaderBand | fam_chores.py:171-194 | title, date and tally are stacked and all end above y_offset |
| LayoutFacts.ColumnBoxes | fam_chores.py:226-233 | a column draws min(5, number of incomplete tasks) boxes |
| LayoutFacts.ColumnsBoxes | fam_chores.py:203-233 | the first `n` columns draw the sum of their shown tasks' boxes |
| LayoutFacts.PageBoxes | fam_chores.py:203-233 | the page draws one box per shown task of the first three sections, and at most 15 |
| LayoutFacts.BoxesBound | fam_chores.py:226 | `n` columns show at most 5n tasks |
| LayoutFacts.PageBands | fam_chores.py:171-239 | the header ends above y_offset and every column command lies at or below it |
| LayoutFacts.ColumnsBelow | fam_chores.py:203-239 | nothing of the first `n` columns lies above y_offset |

## Left out

- HTTP: `fetch_todoist_sections`, `fetch_completed_tasks`, the request part of `fetch_tasks_by_section` and `fetch_weather_nws` (fam_chores.py:50-89, 122-148) are network I/O. The sections, the active tasks, the completed ids and the weather text are inputs, and the `{}` returned on a failed request is not modelled.
- The tally file: reading and writing JSON (fam_chores.py:23-26, 40-48) is file I/O. The file's contents are an `Option<Tally>` input (None when the file is missing or not valid JSON), and the saved tally is an output of `Chores.FetchTasksBySection`.
- The clock: `datetime.now()` and `strftime` (fam_chores.py:33, 99, 176) become the weekday name `today` and the date text, both inputs.
- PIL: `Image.new`, the fonts, `textsize` and `getsize` (fam_chores.py:161-169 and onward) are a foreign library. Text size is an abstract `Metrics` value, one width and one height function per font, and drawing is a sequence of commands; no pixels are modelled.
- The 270° rotation and the e-ink display calls (fam_chores.py:252-256, 280-283, 303) are raster transforms and hardware I/O.
- `task_height` (fam_chores.py:229) is computed but never used.
- `main`, its early return on an empty result, and the 15-minute loop (fam_chores.py:277-314) are process control. `Chores.FetchTasksBySection` and `Layout.Render` are separate operations; the count passed to `Render` is the reloaded tally's, which `TallyStore.ReloadAfterCountIsStable` shows equals the saved one when the reload happens on the same day. The reload at fam_chores.py:155 reads the clock again, so a cycle that crosses midnight into a Monday draws 0; that case is not covered.
- TallyStore.LoadTally: the model's `Option<Tally>` input holds only well-formed tallies, so the following cases of file contents that are read are not represented. Where they raise, nothing catches it, because `main` catches only `IOError` (fam_chores.py:299-304).
  - Contents that are not a JSON object, such as `[]`, raise at fam_chores.py:34 on a Monday and at fam_chores.py:93 on other days. On other days the `and` at line 34 short-circuits first.
  - An object without a numeric `tasks_completed` raises at fam_chores.py:97, unless a Monday reset at line 35 replaces it first.
  - A file whose bytes are not UTF-8 raises at fam_chores.py:25.
  - A negative or fractional `tasks_completed` is accepted and carried on by the program, but it is not a `nat`.
  - An absent `counted_task_ids` or `last_reset` reads as `[]` or None through the `.get` defaults (fam_chores.py:34, 93). This case is represented, as `Some(Tally(n, {}, None))`.
- Debug `print`s.
- The section dictionary is a sequence of (id, name) entries whose ids are distinct, as dictionary keys are (`Aggregate.DistinctIds`, required by `GroupTasks`).
- `enumerate(...)` with `if idx >= 3: break` is written as a loop over the first `min(3, n)` sections; the two draw the same columns.
- The list-to-set conversions of the counted ids (fam_chores.py:93, 98) are modelled as sets throughout, so the order of `counted_task_ids` in the file is not modelled.
- Integer width: coordinates and counts are unbounded integers, as Python's are; `//` by a positive divisor floors, as Dafny's `/` does, so no wrap-around or rounding differs.
