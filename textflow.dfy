/**
 * Greedy word wrap of a task's text: Python's `str.split()` and `str.strip()`
 * on the same whitespace set, the greedy loop of `wrap_text` as a method, and
 * the fold of that loop as the function the method is proved against.
 */
module TextFlow {

  /** The characters Python's `str.split()` and `str.strip()` treat as
      whitespace: the ASCII separators and the Unicode space characters. */
  const Whitespace: set<char> := {
    ' ', '\t', '\n', '\U{B}', '\U{C}', '\r', '\U{1C}', '\U{1D}', '\U{1E}', '\U{1F}',
    '\U{85}', '\U{A0}', '\U{1680}', '\U{2000}', '\U{2001}', '\U{2002}', '\U{2003}', '\U{2004}',
    '\U{2005}', '\U{2006}', '\U{2007}', '\U{2008}', '\U{2009}', '\U{200A}', '\U{2028}', '\U{2029}',
    '\U{202F}', '\U{205F}', '\U{3000}'}

  predicate IsSpace(c: char) {
    c in Whitespace
  }

  predicate AllSpace(s: string) {
    forall i :: 0 <= i < |s| ==> IsSpace(s[i])
  }

  /** A piece produced by splitting: non-empty and free of whitespace. */
  predicate IsWord(w: string) {
    w != [] && forall i :: 0 <= i < |w| ==> !IsSpace(w[i])
  }

  predicate AllWords(ws: seq<string>) {
    forall i :: 0 <= i < |ws| ==> IsWord(ws[i])
  }

  /** No whitespace at either end (what `strip()` guarantees). */
  predicate Trimmed(s: string) {
    s == [] || (!IsSpace(s[0]) && !IsSpace(s[|s| - 1]))
  }

  /** Length of the longest whitespace-free prefix of `s`. */
  function WordLen(s: string): (n: nat)
    ensures n <= |s|
    ensures forall i :: 0 <= i < n ==> !IsSpace(s[i])
    ensures n < |s| ==> IsSpace(s[n])
  {
    if s == [] || IsSpace(s[0]) then 0 else 1 + WordLen(s[1..])
  }

  /** `s.split()`: the maximal whitespace-free pieces of `s`, in order. */
  function Words(s: string): (ws: seq<string>)
    ensures AllWords(ws)
    decreases |s|
  {
    if s == [] then []
    else if IsSpace(s[0]) then Words(s[1..])
    else
      var n := WordLen(s);
      [s[..n]] + Words(s[n..])
  }

  /** `s.strip()`. */
  function StripLeft(s: string): string {
    if s != [] && IsSpace(s[0]) then StripLeft(s[1..]) else s
  }

  function StripRight(s: string): string {
    if s != [] && IsSpace(s[|s| - 1]) then StripRight(s[..|s| - 1]) else s
  }

  function Strip(s: string): string {
    StripRight(StripLeft(s))
  }

  /** Splitting finds no word exactly when the text is empty or all whitespace. */
  lemma {:induction false} WordsEmptyIffAllSpace(s: string)
    ensures Words(s) == [] <==> AllSpace(s)
    decreases |s|
  {
    if s != [] && IsSpace(s[0]) {
      WordsEmptyIffAllSpace(s[1..]);
      if AllSpace(s[1..]) {
        forall i | 0 <= i < |s| ensures IsSpace(s[i]) {
          if i > 0 { assert s[i] == s[1..][i - 1]; }
        }
      }
    }
  }

  /** A single word splits into itself. */
  lemma WordsOfWord(w: string)
    requires IsWord(w)
    ensures Words(w) == [w]
  {
    WordLenNoSpace(w);
    assert w[..|w|] == w;
    assert w[|w|..] == [];
  }

  lemma {:induction false} WordLenNoSpace(s: string)
    requires forall i :: 0 <= i < |s| ==> !IsSpace(s[i])
    ensures WordLen(s) == |s|
  {
    if s != [] {
      assert forall i :: 0 <= i < |s[1..]| ==> s[1..][i] == s[i + 1];
      WordLenNoSpace(s[1..]);
    }
  }

  lemma {:induction false} WordsOfSpaces(s: string)
    requires AllSpace(s)
    ensures Words(s) == []
  {
    WordsEmptyIffAllSpace(s);
  }

  /** Any whitespace character separates: splitting `a + [c] + b` splits `a`
      and `b` apart. With `WordsOfWord` and `WordsOfSpaces` this pins `Words`
      down on every string: its pieces are the maximal whitespace-free runs,
      in order. */
  lemma {:induction false} WordsJoin(a: string, c: char, b: string)
    requires IsSpace(c)
    ensures Words(a + [c] + b) == Words(a) + Words(b)
    decreases |a|
  {
    var s := a + [c] + b;
    if a == [] {
      assert s == [c] + b;
      assert s[1..] == b;
    } else if IsSpace(a[0]) {
      assert s[1..] == a[1..] + [c] + b;
      WordsJoin(a[1..], c, b);
    } else {
      var n := WordLen(a);
      WordLenPrefix(a, [c] + b);
      assert a + [c] + b == a + ([c] + b);
      if n < |a| {
        assert WordLen(s) == n;
        assert s[..n] == a[..n];
        assert s[n..] == a[n..] + [c] + b;
        WordsJoin(a[n..], c, b);
      } else {
        assert WordLen(s) == |a|;
        WordsJoinWord(a, c, b);
      }
    }
  }

  /** `WordsJoin` when `a` is a single word. */
  lemma WordsJoinWord(a: string, c: char, b: string)
    requires IsSpace(c)
    requires a != [] && WordLen(a) == |a| && WordLen(a + [c] + b) == |a|
    ensures Words(a + [c] + b) == Words(a) + Words(b)
  {
    var s := a + [c] + b;
    var n := |a|;
    assert s[..n] == a;
    assert s[n..] == [c] + b;
    assert (s[n..])[1..] == b;
    assert Words(s[n..]) == Words(b);
    assert a[..n] == a;
    assert a[n..] == [];
    assert Words(a) == [a];
  }

  /** `" a\tb  ".split()` is `["a", "b"]`: a leading space, a tab between
      the words and trailing spaces all separate and are dropped. */
  lemma SplitExample()
    ensures Words(" a\tb  ") == ["a", "b"]
  {
    var mid := "a\tb  ";
    SplitExampleMid();
    assert " a\tb  " == [] + [' '] + mid;
    WordsJoin([], ' ', mid);
  }

  lemma SplitExampleMid()
    ensures Words("a\tb  ") == ["a", "b"]
  {
    var tail := "b  ";
    SplitExampleTail();
    assert "a\tb  " == "a" + ['\t'] + tail;
    WordsJoin("a", '\t', tail);
    WordsOfWord("a");
  }

  lemma SplitExampleTail()
    ensures Words("b  ") == ["b"]
  {
    assert "b  " == "b" + [' '] + " ";
    WordsJoin("b", ' ', " ");
    WordsOfWord("b");
    WordsOfSpaces(" ");
  }

  /** The leading word of `a + b` is that of `a`, unless `a` has no whitespace. */
  lemma {:induction false} WordLenPrefix(a: string, b: string)
    ensures WordLen(a) < |a| ==> WordLen(a + b) == WordLen(a)
    ensures WordLen(a) == |a| && b != [] && IsSpace(b[0]) ==> WordLen(a + b) == |a|
    decreases |a|
  {
    if a != [] {
      assert (a + b)[1..] == a[1..] + b;
      WordLenPrefix(a[1..], b);
    }
  }

  /** What `f"{current_line} {word}".strip()` is while the current line is
      empty or a trimmed run of words. */
  lemma CandidateShape(current: string, word: string)
    requires Trimmed(current) && IsWord(word)
    ensures Strip(current + " " + word) == if current == "" then word else current + " " + word
  {
    var s := current + " " + word;
    if current == "" {
      assert s == [' '] + word;
      assert s[1..] == word;
      assert StripLeft(s) == StripLeft(word) == word;
    } else {
      assert s[0] == current[0];
      assert s[|s| - 1] == word[|word| - 1];
      assert Trimmed(s);
    }
  }

  /** The state of the loop of `wrap_text`: the finished lines and `current_line`. */
  datatype WrapState = WrapState(lines: seq<string>, current: string)

  /** One iteration of the loop for `word`. */
  function Step(st: WrapState, word: string, measure: string -> nat, maxWidth: int): WrapState {
    var candidate := Strip(st.current + " " + word);
    if measure(candidate) <= maxWidth then WrapState(st.lines, candidate)
    else WrapState(st.lines + [st.current], word)
  }

  /** The loop run over `words`. */
  function Run(words: seq<string>, measure: string -> nat, maxWidth: int): WrapState
    decreases |words|
  {
    if words == [] then WrapState([], "")
    else Step(Run(words[..|words| - 1], measure, maxWidth), words[|words| - 1], measure, maxWidth)
  }

  /** The final `if current_line: lines.append(current_line)`. */
  function Flush(st: WrapState): seq<string> {
    if st.current != "" then st.lines + [st.current] else st.lines
  }

  function WrapWords(words: seq<string>, measure: string -> nat, maxWidth: int): seq<string> {
    Flush(Run(words, measure, maxWidth))
  }

  /** `wrap_text(text, font, max_width, draw)` with `measure` the font's width. */
  function Wrap(text: string, measure: string -> nat, maxWidth: int): seq<string> {
    WrapWords(Words(text), measure, maxWidth)
  }

  /** The words of a sequence of lines, line after line. */
  function WordsOfLines(lines: seq<string>): seq<string>
    decreases |lines|
  {
    if lines == [] then [] else WordsOfLines(lines[..|lines| - 1]) + Words(lines[|lines| - 1])
  }

  /** The first word of a line ("" for a line without words). */
  function FirstWord(s: string): string {
    var ws := Words(s);
    if ws == [] then "" else ws[0]
  }

  /** The line that follows finished line `i`. */
  function NextLine(st: WrapState, i: nat): string
    requires i < |st.lines|
  {
    if i + 1 < |st.lines| then st.lines[i + 1] else st.current
  }

  /** What holds of the loop state after the words `ws`. */
  predicate RunInv(ws: seq<string>, st: WrapState, measure: string -> nat, maxWidth: int) {
    CoverInv(ws, st) && EmptyLineInv(ws, st, measure, maxWidth)
    && WidthInv(ws, st, measure, maxWidth) && GreedyInv(st, measure, maxWidth)
  }

  /** The current line is empty only before the first word, and the lines
      hold the words seen so far. */
  predicate CoverInv(ws: seq<string>, st: WrapState) {
    && (st.current == "" <==> ws == [])
    && Trimmed(st.current)
    && (st.current != "" ==> Words(st.current) != [])
    && WordsOfLines(st.lines) + Words(st.current) == ws
    && (ws == [] ==> st.lines == [])
  }

  /** Only the first finished line can be empty, and it is when the first word did not fit. */
  predicate EmptyLineInv(ws: seq<string>, st: WrapState, measure: string -> nat, maxWidth: int) {
    && (ws != [] ==> ((st.lines != [] && st.lines[0] == "") <==> measure(ws[0]) > maxWidth))
    && (forall i :: 0 < i < |st.lines| ==> st.lines[i] != "")
  }

  /** A line wider than the bound is a single word. */
  predicate WidthInv(ws: seq<string>, st: WrapState, measure: string -> nat, maxWidth: int) {
    && (forall i :: 0 <= i < |st.lines| ==>
          measure(st.lines[i]) <= maxWidth || st.lines[i] == "" || st.lines[i] in ws)
    && (measure(st.current) <= maxWidth || st.current == "" || st.current in ws)
  }

  /** No finished line could have taken the next line's first word. */
  predicate GreedyInv(st: WrapState, measure: string -> nat, maxWidth: int) {
    forall i :: 0 <= i < |st.lines| ==>
      measure(Strip(st.lines[i] + " " + FirstWord(NextLine(st, i)))) > maxWidth
  }

  /** The loop state stays as described while a word joins the current line. */
  lemma AdoptKeepsInv(prev: seq<string>, w: string, st: WrapState, measure: string -> nat, maxWidth: int)
    requires IsWord(w) && RunInv(prev, st, measure, maxWidth)
    requires measure(Strip(st.current + " " + w)) <= maxWidth
    ensures RunInv(prev + [w], Step(st, w, measure, maxWidth), measure, maxWidth)
  {
    CandidateShape(st.current, w);
    WordsOfWord(w);
    if st.current == "" {
      assert prev == [] && st.lines == [];
      assert prev + [w] == [w];
      assert Step(st, w, measure, maxWidth) == WrapState([], w);
    } else {
      AdoptOnto(prev, w, st, measure, maxWidth);
    }
  }

  lemma AdoptOnto(prev: seq<string>, w: string, st: WrapState, measure: string -> nat, maxWidth: int)
    requires IsWord(w) && RunInv(prev, st, measure, maxWidth) && st.current != ""
    requires measure(Strip(st.current + " " + w)) <= maxWidth
    ensures RunInv(prev + [w], Step(st, w, measure, maxWidth), measure, maxWidth)
  {
    CandidateShape(st.current, w);
    var st' := WrapState(st.lines, st.current + " " + w);
    assert Step(st, w, measure, maxWidth) == st';
    WordsOfWord(w);
    WordsJoin(st.current, ' ', w);
    assert st.current + [' '] + w == st.current + " " + w;
    AdoptCover(prev, w, st);
    assert EmptyLineInv(prev + [w], st', measure, maxWidth) by {
      assert (prev + [w])[0] == prev[0];
    }
    assert WidthInv(prev + [w], st', measure, maxWidth) by {
      forall x | x in prev ensures x in prev + [w] { }
    }
    assert FirstWord(st'.current) == FirstWord(st.current);
    GreedySameFirstWord(st, st', measure, maxWidth);
  }

  /** Joining a word onto a non-empty current line keeps the cover invariant. */
  lemma AdoptCover(prev: seq<string>, w: string, st: WrapState)
    requires IsWord(w) && CoverInv(prev, st) && st.current != ""
    requires Words(w) == [w]
    requires Words(st.current + " " + w) == Words(st.current) + Words(w)
    ensures CoverInv(prev + [w], WrapState(st.lines, st.current + " " + w))
  {
    var candidate := st.current + " " + w;
    assert candidate[0] == st.current[0] && candidate[|candidate| - 1] == w[|w| - 1];
  }

  /** Growing the current line keeps its first word, so greediness is kept. */
  lemma GreedySameFirstWord(st: WrapState, st': WrapState, measure: string -> nat, maxWidth: int)
    requires GreedyInv(st, measure, maxWidth)
    requires st'.lines == st.lines && FirstWord(st'.current) == FirstWord(st.current)
    ensures GreedyInv(st', measure, maxWidth)
  {
    forall i | 0 <= i < |st'.lines|
      ensures measure(Strip(st'.lines[i] + " " + FirstWord(NextLine(st', i)))) > maxWidth
    {
      assert FirstWord(NextLine(st', i)) == FirstWord(NextLine(st, i));
    }
  }

  /** The loop state stays as described when a word that does not fit starts a new line. */
  lemma RejectKeepsInv(prev: seq<string>, w: string, st: WrapState, measure: string -> nat, maxWidth: int)
    requires IsWord(w) && RunInv(prev, st, measure, maxWidth)
    requires measure(Strip(st.current + " " + w)) > maxWidth
    ensures RunInv(prev + [w], Step(st, w, measure, maxWidth), measure, maxWidth)
  {
    var st' := WrapState(st.lines + [st.current], w);
    assert Step(st, w, measure, maxWidth) == st';
    WordsOfWord(w);
    RejectCover(prev, w, st);
    RejectEmptyLine(prev, w, st, measure, maxWidth);
    RejectWidth(prev, w, st, measure, maxWidth);
    RejectGreedy(w, st, measure, maxWidth);
  }

  /** Closing the current line and starting one with `w` keeps the cover invariant. */
  lemma RejectCover(prev: seq<string>, w: string, st: WrapState)
    requires IsWord(w) && Words(w) == [w] && CoverInv(prev, st)
    ensures CoverInv(prev + [w], WrapState(st.lines + [st.current], w))
  {
    var st' := WrapState(st.lines + [st.current], w);
    assert WordsOfLines(st'.lines) == WordsOfLines(st.lines) + Words(st.current);
  }

  /** Closing the current line keeps the empty-line invariant: the closed line
      is empty only when it is the first and the first word does not fit. */
  lemma RejectEmptyLine(prev: seq<string>, w: string, st: WrapState, measure: string -> nat, maxWidth: int)
    requires IsWord(w) && CoverInv(prev, st) && EmptyLineInv(prev, st, measure, maxWidth)
    requires measure(Strip(st.current + " " + w)) > maxWidth
    ensures EmptyLineInv(prev + [w], WrapState(st.lines + [st.current], w), measure, maxWidth)
  {
    var ws := prev + [w];
    var st' := WrapState(st.lines + [st.current], w);
    CandidateShape(st.current, w);
    if st.current == "" {
      assert prev == [] && st'.lines == [""];
      assert ws[0] == w;
    } else {
      assert ws[0] == prev[0];
      assert st'.lines[|st.lines|] == st.current;
    }
  }

  /** Closing the current line keeps the width invariant. */
  lemma RejectWidth(prev: seq<string>, w: string, st: WrapState, measure: string -> nat, maxWidth: int)
    requires WidthInv(prev, st, measure, maxWidth)
    ensures WidthInv(prev + [w], WrapState(st.lines + [st.current], w), measure, maxWidth)
  {
    forall x | x in prev ensures x in prev + [w] { }
  }

  /** Closing the current line because the next word does not fit keeps greediness. */
  lemma RejectGreedy(w: string, st: WrapState, measure: string -> nat, maxWidth: int)
    requires GreedyInv(st, measure, maxWidth) && Words(w) == [w]
    requires measure(Strip(st.current + " " + w)) > maxWidth
    ensures GreedyInv(WrapState(st.lines + [st.current], w), measure, maxWidth)
  {
    var st' := WrapState(st.lines + [st.current], w);
    assert FirstWord(w) == w;
    forall i | 0 <= i < |st'.lines|
      ensures measure(Strip(st'.lines[i] + " " + FirstWord(NextLine(st', i)))) > maxWidth
    {
      if i == |st.lines| {
        assert NextLine(st', i) == w;
      } else {
        assert st'.lines[i] == st.lines[i];
        assert NextLine(st', i) == NextLine(st, i);
      }
    }
  }

  lemma {:induction false} RunKeepsInv(ws: seq<string>, measure: string -> nat, maxWidth: int)
    requires AllWords(ws)
    ensures RunInv(ws, Run(ws, measure, maxWidth), measure, maxWidth)
    decreases |ws|
  {
    if ws != [] {
      var prev := ws[..|ws| - 1];
      var w := ws[|ws| - 1];
      assert ws == prev + [w];
      assert AllWords(prev) by {
        forall i | 0 <= i < |prev| ensures IsWord(prev[i]) { assert prev[i] == ws[i]; }
      }
      RunKeepsInv(prev, measure, maxWidth);
      var st := Run(prev, measure, maxWidth);
      if measure(Strip(st.current + " " + w)) <= maxWidth {
        AdoptKeepsInv(prev, w, st, measure, maxWidth);
      } else {
        RejectKeepsInv(prev, w, st, measure, maxWidth);
      }
    }
  }

  lemma FlushedWords(ws: seq<string>, measure: string -> nat, maxWidth: int)
    requires AllWords(ws)
    ensures RunInv(ws, Run(ws, measure, maxWidth), measure, maxWidth)
    ensures WordsOfLines(WrapWords(ws, measure, maxWidth)) == ws
  {
    RunKeepsInv(ws, measure, maxWidth);
    var st := Run(ws, measure, maxWidth);
    if st.current == "" {
      assert Words(st.current) == [];
    }
  }

  /** Text without words wraps to no lines, and text with words to at least one. */
  lemma WrapEmptyIffNoWords(text: string, measure: string -> nat, maxWidth: int)
    ensures Wrap(text, measure, maxWidth) == [] <==> AllSpace(text)
  {
    WordsEmptyIffAllSpace(text);
    RunKeepsInv(Words(text), measure, maxWidth);
  }

  /** Coverage: the words of the output lines, line after line, are exactly
      `text.split()`; no word is dropped, repeated or broken. */
  lemma WrapCoversWords(text: string, measure: string -> nat, maxWidth: int)
    ensures WordsOfLines(Wrap(text, measure, maxWidth)) == Words(text)
  {
    FlushedWords(Words(text), measure, maxWidth);
  }

  /** Width bound: a line wider than `maxWidth` is one word of the text on its
      own (or the empty line emitted before an overlong first word). */
  lemma WrapWidth(text: string, measure: string -> nat, maxWidth: int)
    ensures var out := Wrap(text, measure, maxWidth);
      forall i :: 0 <= i < |out| ==>
        measure(out[i]) <= maxWidth || out[i] == "" || out[i] in Words(text)
  {
    FlushedWords(Words(text), measure, maxWidth);
  }

  /** The output starts with an empty line exactly when the first word alone is
      wider than `maxWidth`; no other line is empty. */
  lemma WrapLeadingEmptyLine(text: string, measure: string -> nat, maxWidth: int)
    requires Words(text) != []
    ensures var out := Wrap(text, measure, maxWidth);
      && out != []
      && (out[0] == "" <==> measure(Words(text)[0]) > maxWidth)
      && forall i :: 0 < i < |out| ==> out[i] != ""
  {
    FlushedWords(Words(text), measure, maxWidth);
  }

  /** Greediness: no line could have taken the first word of the next line. */
  lemma WrapGreedy(text: string, measure: string -> nat, maxWidth: int)
    ensures var out := Wrap(text, measure, maxWidth);
      forall i :: 0 <= i < |out| - 1 ==>
        measure(Strip(out[i] + " " + FirstWord(out[i + 1]))) > maxWidth
  {
    var ws := Words(text);
    FlushedWords(ws, measure, maxWidth);
    var st := Run(ws, measure, maxWidth);
    var out := Wrap(text, measure, maxWidth);
    if st.current != "" {
      forall i | 0 <= i < |out| - 1
        ensures measure(Strip(out[i] + " " + FirstWord(out[i + 1]))) > maxWidth
      {
        assert out[i] == st.lines[i];
        assert out[i + 1] == NextLine(st, i);
      }
    }
  }

  /** The loop of `wrap_text`. */
  method WrapText(text: string, measure: string -> nat, maxWidth: int) returns (lines: seq<string>)
    ensures lines == Wrap(text, measure, maxWidth)
  {
    var words := Words(text);
    lines := [];
    var current := "";
    for k := 0 to |words|
      invariant WrapState(lines, current) == Run(words[..k], measure, maxWidth)
    {
      var word := words[k];
      assert words[..k + 1][..k] == words[..k];
      var candidate := Strip(current + " " + word);
      if measure(candidate) <= maxWidth {
        current := candidate;
      } else {
        lines := lines + [current];
        current := word;
      }
    }
    assert words[..|words|] == words;
    if current != "" {
      lines := lines + [current];
    }
  }
}
