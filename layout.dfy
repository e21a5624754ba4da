/**
 * The landscape layout of `draw_todoist_tasks` as a sequence of draw
 * commands: a centred header (title, date, weekly tally), up to three section
 * columns of up to five wrapped tasks each, and a weather footer. Fonts are
 * measured through abstract width and height functions; no pixel is modelled.
 */
module Layout {
  import opened TextFlow
  import opened Aggregate

  /** The FreeFont faces the layout loads. */
  datatype Face = FreeSans | FreeSansBold | FreeSansOblique

  datatype Font = Font(face: Face, size: nat)

  const TitleFont: Font := Font(FreeSansBold, 48)
  /** Used for the date and for the section headers. */
  const DateFont: Font := Font(FreeSans, 36)
  const TallyFont: Font := Font(FreeSans, 28)
  const TaskFont: Font := Font(FreeSans, 24)
  const ItalicFont: Font := Font(FreeSansOblique, 24)
  const WeatherFont: Font := Font(FreeSans, 30)

  /** The size of a text in a font, as the imaging library reports it. */
  datatype Metrics = Metrics(width: (Font, string) -> nat, height: (Font, string) -> nat)

  /** The two ink planes of the panel. */
  datatype Plane = Black | Red

  datatype Cmd =
    | Text(plane: Plane, x: int, y: int, text: string, font: Font)
    | Line(plane: Plane, x0: int, y0: int, x1: int, y1: int, lineWidth: nat)
    | Rect(plane: Plane, x0: int, y0: int, x1: int, y1: int, lineWidth: nat)

  const Title: string := "Family Chores"
  const TitleY: int := 10
  const BoxSize: int := 12
  const MaxColumns: nat := 3
  const MaxTasks: nat := 5

  /** The top edge of what a command draws. */
  function Top(c: Cmd): int {
    match c
    case Text(_, _, y, _, _) => y
    case Line(_, _, y0, _, _, _) => y0
    case Rect(_, _, y0, _, _, _) => y0
  }

  /** The left edge of what a command draws. */
  function Left(c: Cmd): int {
    match c
    case Text(_, x, _, _, _) => x
    case Line(_, x0, _, _, _, _) => x0
    case Rect(_, x0, _, _, _, _) => x0
  }

  function Min(a: nat, b: nat): nat {
    if a <= b then a else b
  }

  /** `(canvas_width - w) // 2`. Dafny's division by a positive divisor rounds
      down, as Python's `//` does, also when the text is wider than the canvas. */
  function Center(canvasWidth: int, w: int): (x: int)
    ensures 0 <= (canvasWidth - w) - 2 * x <= 1
  {
    (canvasWidth - w) / 2
  }

  function Digit(d: nat): char
    requires d < 10
  {
    "0123456789"[d]
  }

  /** `str(n)` for a non-negative integer. */
  function NatToString(n: nat): string
    decreases n
  {
    if n < 10 then [Digit(n)] else NatToString(n / 10) + [Digit(n % 10)]
  }

  function TallyText(count: nat): string {
    "Weekly Completed Tasks: " + NatToString(count)
  }

  function CompletedText(count: nat): string {
    "Completed - " + NatToString(count)
  }

  /** The positions of the header texts and of the top of the section band. */
  datatype Header = Header(titleX: int, dateX: int, dateY: int, tallyX: int, tallyY: int, yOffset: int)

  function HeaderPositions(canvasWidth: int, date: string, count: nat, m: Metrics): (h: Header)
    ensures 0 <= (canvasWidth - m.width(TitleFont, Title)) - 2 * h.titleX <= 1
    ensures 0 <= (canvasWidth - m.width(DateFont, date)) - 2 * h.dateX <= 1
    ensures 0 <= (canvasWidth - m.width(TallyFont, TallyText(count))) - 2 * h.tallyX <= 1
    ensures h.dateY == TitleY + m.height(TitleFont, Title) + 10
    ensures h.tallyY == h.dateY + m.height(DateFont, date) + 20
    ensures h.yOffset == h.tallyY + m.height(TallyFont, TallyText(count)) + 20
    ensures TitleY < h.dateY < h.tallyY < h.yOffset
  {
    var dateY := TitleY + m.height(TitleFont, Title) + 10;
    var tallyY := dateY + m.height(DateFont, date) + 20;
    Header(Center(canvasWidth, m.width(TitleFont, Title)),
           Center(canvasWidth, m.width(DateFont, date)), dateY,
           Center(canvasWidth, m.width(TallyFont, TallyText(count))), tallyY,
           tallyY + m.height(TallyFont, TallyText(count)) + 20)
  }

  function HeaderCmds(canvasWidth: int, date: string, count: nat, m: Metrics): seq<Cmd> {
    var h := HeaderPositions(canvasWidth, date, count, m);
    [Text(Red, h.titleX, TitleY, Title, TitleFont),
     Text(Red, h.dateX, h.dateY, date, DateFont),
     Text(Black, h.tallyX, h.tallyY, TallyText(count), TallyFont)]
  }

  /** The width measure `wrap_text` is given for task text. */
  function TaskWidth(m: Metrics): string -> nat {
    s => m.width(TaskFont, s)
  }

  /** Commands drawn so far and the vertical cursor after them. */
  datatype Flow = Flow(cmds: seq<Cmd>, y: int)

  /** The wrapped lines of one task, each drawn at the cursor, which then
      moves down by the line's height plus 5. */
  function LinesFlow(x: int, y: int, lines: seq<string>, m: Metrics): Flow
    decreases |lines|
  {
    if lines == [] then Flow([], y)
    else
      var f := LinesFlow(x, y, lines[..|lines| - 1], m);
      var line := lines[|lines| - 1];
      Flow(f.cmds + [Text(Black, x, f.y, line, TaskFont)], f.y + m.height(TaskFont, line) + 5)
  }

  /** One task: its check box at the cursor, its wrapped lines beside it, then 5 of padding. */
  function TaskFlow(x: int, y: int, task: string, maxWidth: int, m: Metrics): Flow {
    var f := LinesFlow(x + BoxSize + 5, y, Wrap(task, TaskWidth(m), maxWidth), m);
    Flow([Rect(Red, x, y, x + BoxSize, y + BoxSize, 2)] + f.cmds, f.y + 5)
  }

  function TasksFlow(x: int, y: int, tasks: seq<string>, maxWidth: int, m: Metrics): Flow
    decreases |tasks|
  {
    if tasks == [] then Flow([], y)
    else
      var f := TasksFlow(x, y, tasks[..|tasks| - 1], maxWidth, m);
      var g := TaskFlow(x, f.y, tasks[|tasks| - 1], maxWidth, m);
      Flow(f.cmds + g.cmds, g.y)
  }

  /** Drawing one more task appends its commands at the cursor the earlier tasks left. */
  lemma TasksFlowSnoc(x: int, y: int, tasks: seq<string>, j: nat, maxWidth: int, m: Metrics)
    requires j < |tasks|
    ensures var f := TasksFlow(x, y, tasks[..j], maxWidth, m);
      var g := TaskFlow(x, f.y, tasks[j], maxWidth, m);
      TasksFlow(x, y, tasks[..j + 1], maxWidth, m) == Flow(f.cmds + g.cmds, g.y)
  {
    assert tasks[..j + 1][..j] == tasks[..j];
  }

  /** `tasks["incomplete"][:5]`. */
  function Shown(view: SectionView): seq<string> {
    view.incomplete[..Min(MaxTasks, |view.incomplete|)]
  }

  function SectionWidth(canvasWidth: nat): nat {
    canvasWidth / 3
  }

  function ColumnX(idx: nat, canvasWidth: nat): int {
    idx * SectionWidth(canvasWidth) + 10
  }

  /** The section header at the top of column `idx`, its underline rule and
      the completed count below it. */
  function ColumnHead(idx: nat, name: string, view: SectionView, yOffset: int, canvasWidth: nat, m: Metrics): seq<Cmd> {
    var x := ColumnX(idx, canvasWidth);
    var hh := m.height(DateFont, name);
    [Text(Red, x, yOffset, name, DateFont),
     Line(Red, x, yOffset + hh + 2, x + SectionWidth(canvasWidth) - 10, yOffset + hh + 2, 2),
     Text(Black, x, yOffset + hh + 10, CompletedText(view.completedCount), ItalicFont)]
  }

  /** Where the task cursor of a column starts. */
  function TasksTop(name: string, yOffset: int, m: Metrics): int {
    yOffset + m.height(DateFont, name) + 40
  }

  /** The width task text is wrapped to in a column. */
  function TaskMaxWidth(canvasWidth: nat): int {
    SectionWidth(canvasWidth) - 40
  }

  /** Column `idx`: its head, then its shown tasks. */
  function ColumnCmds(idx: nat, name: string, view: SectionView, yOffset: int, canvasWidth: nat, m: Metrics): seq<Cmd> {
    ColumnHead(idx, name, view, yOffset, canvasWidth, m)
    + TasksFlow(ColumnX(idx, canvasWidth), TasksTop(name, yOffset, m), Shown(view), TaskMaxWidth(canvasWidth), m).cmds
  }

  /** The first `n` columns. */
  function ColumnsCmds(items: seq<(string, SectionView)>, n: nat, yOffset: int, canvasWidth: nat, m: Metrics): seq<Cmd>
    requires n <= |items|
  {
    if n == 0 then []
    else ColumnsCmds(items, n - 1, yOffset, canvasWidth, m)
         + ColumnCmds(n - 1, items[n - 1].0, items[n - 1].1, yOffset, canvasWidth, m)
  }

  /** The separator rule 70 above the bottom edge and the centred weather text 10 below it. */
  function FooterCmds(canvasWidth: int, canvasHeight: int, weather: string, m: Metrics): (r: seq<Cmd>)
    ensures |r| == 2 && r[0].Line? && r[1].Text?
    ensures r[0].plane == Red && r[0].y0 == r[0].y1 == canvasHeight - 70
    ensures r[0].x0 == 10 && r[0].x1 == canvasWidth - 10
    ensures r[1].plane == Black && r[1].text == weather && r[1].font == WeatherFont
    ensures r[1].y == r[0].y0 + 10
    ensures 0 <= (canvasWidth - m.width(WeatherFont, weather)) - 2 * r[1].x <= 1
  {
    var lineY := canvasHeight - 70;
    [Line(Red, 10, lineY, canvasWidth - 10, lineY, 2),
     Text(Black, Center(canvasWidth, m.width(WeatherFont, weather)), lineY + 10, weather, WeatherFont)]
  }

  /** Everything drawn, in drawing order. */
  function Page(canvasWidth: nat, canvasHeight: nat, count: nat, date: string,
                  items: seq<(string, SectionView)>, weather: string, m: Metrics): seq<Cmd>
  {
    var h := HeaderPositions(canvasWidth, date, count, m);
    HeaderCmds(canvasWidth, date, count, m)
    + ColumnsCmds(items, Min(MaxColumns, |items|), h.yOffset, canvasWidth, m)
    + FooterCmds(canvasWidth, canvasHeight, weather, m)
  }

  /** The drawing code of `draw_todoist_tasks`, with the tally count, date
      text and weather text passed in. */
  method Render(canvasWidth: nat, canvasHeight: nat, count: nat, date: string,
                items: seq<(string, SectionView)>, weather: string, m: Metrics)
    returns (cmds: seq<Cmd>)
    ensures cmds == Page(canvasWidth, canvasHeight, count, date, items, weather, m)
  {
    var header, yOffset := DrawHeader(canvasWidth, date, count, m);
    var columns := DrawColumns(items, yOffset, canvasWidth, m);
    var footer := DrawFooter(canvasWidth, canvasHeight, weather, m);
    cmds := header + columns + footer;
  }

  /** The title, the date and the weekly tally, each centred, one below the
      other; `yOffset` is where the section band starts. */
  method DrawHeader(canvasWidth: nat, date: string, count: nat, m: Metrics)
    returns (header: seq<Cmd>, yOffset: int)
    ensures header == HeaderCmds(canvasWidth, date, count, m)
    ensures yOffset == HeaderPositions(canvasWidth, date, count, m).yOffset
  {
    var titleW, titleH := m.width(TitleFont, Title), m.height(TitleFont, Title);
    var titleX := (canvasWidth - titleW) / 2;
    var dateW, dateH := m.width(DateFont, date), m.height(DateFont, date);
    var dateX := (canvasWidth - dateW) / 2;
    var dateY := TitleY + titleH + 10;
    var tallyText := TallyText(count);
    var tallyW, tallyH := m.width(TallyFont, tallyText), m.height(TallyFont, tallyText);
    var tallyX := (canvasWidth - tallyW) / 2;
    var tallyY := dateY + dateH + 20;
    header := [Text(Red, titleX, TitleY, Title, TitleFont),
               Text(Red, dateX, dateY, date, DateFont),
               Text(Black, tallyX, tallyY, tallyText, TallyFont)];
    yOffset := tallyY + tallyH + 20;
  }

  /** The section loop, which breaks off once three sections are drawn. */
  method DrawColumns(items: seq<(string, SectionView)>, yOffset: int, canvasWidth: nat, m: Metrics)
    returns (columns: seq<Cmd>)
    ensures columns == ColumnsCmds(items, Min(MaxColumns, |items|), yOffset, canvasWidth, m)
  {
    columns := [];
    var n := Min(MaxColumns, |items|);
    for idx := 0 to n
      invariant columns == ColumnsCmds(items, idx, yOffset, canvasWidth, m)
    {
      columns := AppendColumn(items, idx, columns, yOffset, canvasWidth, m);
    }
  }

  /** One pass of the section loop: the column of section `idx` drawn after
      the columns before it. */
  method AppendColumn(items: seq<(string, SectionView)>, idx: nat, columns: seq<Cmd>, yOffset: int, canvasWidth: nat, m: Metrics)
    returns (columns': seq<Cmd>)
    requires idx < |items| && columns == ColumnsCmds(items, idx, yOffset, canvasWidth, m)
    ensures columns' == ColumnsCmds(items, idx + 1, yOffset, canvasWidth, m)
  {
    var (name, view) := items[idx];
    var column := DrawColumn(idx, name, view, yOffset, canvasWidth, m);
    columns' := columns + column;
  }

  /** The separator rule near the bottom edge and the centred weather text below it. */
  method DrawFooter(canvasWidth: nat, canvasHeight: nat, weather: string, m: Metrics)
    returns (footer: seq<Cmd>)
    ensures footer == FooterCmds(canvasWidth, canvasHeight, weather, m)
  {
    var lineY := canvasHeight - 70;
    var weatherX := (canvasWidth - m.width(WeatherFont, weather)) / 2;
    var weatherY := lineY + 10;
    footer := [Line(Red, 10, lineY, canvasWidth - 10, lineY, 2),
               Text(Black, weatherX, weatherY, weather, WeatherFont)];
  }

  /** One pass of the section loop: header, underline, completed count and
      the first five incomplete tasks, the cursor moving down task by task. */
  method DrawColumn(idx: nat, section: string, view: SectionView, yOffset: int, canvasWidth: nat, m: Metrics)
    returns (cmds: seq<Cmd>)
    ensures cmds == ColumnCmds(idx, section, view, yOffset, canvasWidth, m)
  {
    var sectionWidth := canvasWidth / 3;
    var x := idx * sectionWidth + 10;
    var hh := m.height(DateFont, section);
    var head := [Text(Red, x, yOffset, section, DateFont),
                 Line(Red, x, yOffset + hh + 2, x + sectionWidth - 10, yOffset + hh + 2, 2),
                 Text(Black, x, yOffset + hh + 10, CompletedText(view.completedCount), ItalicFont)];
    assert head == ColumnHead(idx, section, view, yOffset, canvasWidth, m);
    var shown := view.incomplete[..Min(MaxTasks, |view.incomplete|)];
    assert x == ColumnX(idx, canvasWidth);
    assert yOffset + hh + 40 == TasksTop(section, yOffset, m);
    assert sectionWidth - 40 == TaskMaxWidth(canvasWidth);
    assert shown == Shown(view);
    var drawn, y := DrawTasks(x, yOffset + hh + 40, shown, sectionWidth - 40, m);
    cmds := head + drawn;
  }

  /** The task loop of one column. */
  method DrawTasks(x: int, top: int, shown: seq<string>, maxWidth: int, m: Metrics)
    returns (drawn: seq<Cmd>, y: int)
    ensures Flow(drawn, y) == TasksFlow(x, top, shown, maxWidth, m)
  {
    drawn := [];
    y := top;
    for j := 0 to |shown|
      invariant Flow(drawn, y) == TasksFlow(x, top, shown[..j], maxWidth, m)
    {
      var taskCmds, y' := DrawTask(x, y, shown[j], maxWidth, m);
      TasksFlowSnoc(x, top, shown, j, maxWidth, m);
      drawn := drawn + taskCmds;
      y := y';
    }
    assert shown[..|shown|] == shown;
  }

  /** One pass of the task loop: the check box, then each wrapped line at the
      cursor, the cursor moving down by the line's height plus 5, then 5 more. */
  method DrawTask(x: int, y0: int, task: string, maxWidth: int, m: Metrics)
    returns (cmds: seq<Cmd>, y: int)
    ensures Flow(cmds, y) == TaskFlow(x, y0, task, maxWidth, m)
  {
    var lines := WrapText(task, TaskWidth(m), maxWidth);
    var box := Rect(Red, x, y0, x + BoxSize, y0 + BoxSize, 2);
    var drawn := [];
    y := y0;
    for k := 0 to |lines|
      invariant Flow(drawn, y) == LinesFlow(x + BoxSize + 5, y0, lines[..k], m)
    {
      assert lines[..k + 1][..k] == lines[..k];
      drawn := drawn + [Text(Black, x + BoxSize + 5, y, lines[k], TaskFont)];
      y := y + m.height(TaskFont, lines[k]) + 5;
    }
    assert lines[..|lines|] == lines;
    cmds := [box] + drawn;
    y := y + 5;
  }
}
