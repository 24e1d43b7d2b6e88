/** The text half of `saveOutput` in analyzer.js: the report written out
    bucket by bucket, each bucket's name followed by a blank line and then
    one paragraph per signal, the whole text trimmed at both ends.

    `RenderText` is the specification; `SaveText` is the loop that builds
    the string, proved equal to it. */
module ReportText {
  import opened Wrappers
  import opened JsText
  import opened JsValue
  import opened Analyzer
  import opened SeqFacts

  /** `Object.entries(output)`: the buckets in the order the keys were
      created. */
  function Categories(r: Report): seq<(string, seq<Signal>)> {
    [(Over15Key, r.over15), (Over25Key, r.over25), (Over35Key, r.over35), (WinKey, r.win)]
  }

  /** `Teams: ${entry.teams}\n` */
  function TeamsLine(e: Signal): string {
    "Teams: " + e.teams + "\n"
  }

  /** `Analysis: ${entry.analysis}\n` */
  function AnalysisLine(e: Signal): string {
    "Analysis: " + e.analysis + "\n"
  }

  /** `Winner: ${entry.winner}\n` */
  function WinnerLine(e: Signal): string
    requires e.winner.Some?
  {
    "Winner: " + e.winner.value + "\n"
  }

  /** The paragraph of one signal: the winner line only for a truthy winner
      (`if (entry.winner)`: absent and empty winners are falsy), then a
      blank line. */
  function EntryText(e: Signal): string {
    TeamsLine(e) + AnalysisLine(e) + (if Truthy(e.winner) then WinnerLine(e) else "") + "\n"
  }

  /** The paragraphs of a bucket, in order. */
  function EntriesText(entries: seq<Signal>): string {
    if entries == [] then ""
    else EntriesText(entries[..|entries| - 1]) + EntryText(entries[|entries| - 1])
  }

  /** `${category}\n\n` */
  function Heading(name: string): string {
    name + "\n\n"
  }

  /** A bucket: its heading, then its paragraphs. */
  function CategoryText(category: (string, seq<Signal>)): string {
    Heading(category.0) + EntriesText(category.1)
  }

  /** The buckets, in order, before trimming. */
  function CategoriesText(categories: seq<(string, seq<Signal>)>): string {
    if categories == [] then ""
    else CategoriesText(categories[..|categories| - 1]) + CategoryText(categories[|categories| - 1])
  }

  function RawText(r: Report): string {
    CategoriesText(Categories(r))
  }

  /** What is written to the text file: `textOutput.trim()`. */
  function RenderText(r: Report): string {
    Trim(RawText(r))
  }

  /** The text of four buckets is their four texts in order. */
  lemma FourCategories(c0: (string, seq<Signal>), c1: (string, seq<Signal>), c2: (string, seq<Signal>), c3: (string, seq<Signal>))
    ensures CategoriesText([c0, c1, c2, c3]) == CategoryText(c0) + CategoryText(c1) + CategoryText(c2) + CategoryText(c3)
  {
    var cs := [c0, c1, c2, c3];
    assert cs[..1][..0] == [];
    assert CategoriesText(cs[..1]) == CategoryText(c0);
    assert cs[..2][..1] == cs[..1];
    assert CategoriesText(cs[..2]) == CategoryText(c0) + CategoryText(c1);
    assert cs[..3][..2] == cs[..2];
    assert CategoriesText(cs[..3]) == CategoryText(c0) + CategoryText(c1) + CategoryText(c2);
    assert cs[..3] == cs[..|cs| - 1];
  }

  /** The untrimmed text of the four buckets is the four bucket texts in
      key order. */
  lemma RawTextIs(r: Report)
    ensures RawText(r) == CategoryText((Over15Key, r.over15)) + CategoryText((Over25Key, r.over25))
                          + CategoryText((Over35Key, r.over35)) + CategoryText((WinKey, r.win))
  {
    FourCategories((Over15Key, r.over15), (Over25Key, r.over25), (Over35Key, r.over35), (WinKey, r.win));
  }

  /** A bucket without signals is its heading alone. */
  lemma EmptyCategory(name: string)
    ensures CategoryText((name, [])) == Heading(name)
  {
    assert Heading(name) + "" == Heading(name);
  }

  /** Trimming at the end keeps a prefix that ends in a non-space. */
  lemma TrimEndKeepsPrefix(s: string, k: nat)
    requires 1 <= k <= |s| && !IsSpace(s[k - 1])
    ensures k <= |TrimEnd(s)| && TrimEnd(s)[..k] == s[..k]
  {
    TrimEndSpec(s);
  }

  /** The text always opens with the OVER 1.5 heading, at its very start:
      the buckets are written in key order and nothing is trimmed off the
      front. */
  lemma RenderStartsWithHeading(r: Report)
    ensures |Over15Key| <= |RenderText(r)|
    ensures RenderText(r)[..|Over15Key|] == Over15Key
  {
    var raw := RawText(r);
    RawTextIs(r);
    assert raw[..|Over15Key|] == Over15Key;
    assert TrimStart(raw) == raw;
    TrimEndKeepsPrefix(raw, |Over15Key|);
  }

  /** An empty report is written as the four headings separated by blank
      lines, with the final blank line trimmed away. */
  lemma RenderEmpty()
    ensures RenderText(EmptyReport)
      == Heading(Over15Key) + Heading(Over25Key) + Heading(Over35Key) + WinKey
  {
    var raw := RawText(EmptyReport);
    RawTextIs(EmptyReport);
    assert TrimStart(raw) == raw;
    TrimEndIs(raw, |raw| - 2);
  }

  /** A winner that is present but empty prints no `Winner:` line, just like
      a missing one. */
  lemma EmptyWinnerIsOmitted(teams: string, analysis: string)
    ensures EntryText(Signal(teams, analysis, Some(""))) == EntryText(Signal(teams, analysis, None))
    ensures EntryText(Signal(teams, analysis, None)) == "Teams: " + teams + "\n" + "Analysis: " + analysis + "\n" + "\n"
  {
  }

  /** Trimming text that starts with a non-space and ends with a blank line
      after a non-space removes exactly that blank line. */
  lemma TrimDropsBlankLine(raw: string)
    requires |raw| >= 3 && !IsSpace(raw[0])
    requires raw[|raw| - 2..] == "\n\n" && !IsSpace(raw[|raw| - 3])
    ensures Trim(raw) == raw[..|raw| - 2]
  {
    assert TrimStart(raw) == raw;
    assert IsSpace(raw[|raw| - 2..][0]) && IsSpace(raw[|raw| - 2..][1]);
    TrimEndIs(raw, |raw| - 2);
  }

  /** The headings that precede the WIN bucket's paragraphs. */
  function Headings(): string {
    Heading(Over15Key) + Heading(Over25Key) + Heading(Over35Key) + Heading(WinKey)
  }

  /** A report whose only signal is a WIN signal is written as the four
      headings followed by that signal's paragraph. */
  lemma RawSingleWin(e: Signal)
    ensures RawText(Report([], [], [], [e])) == Headings() + EntryText(e)
  {
    RawTextIs(Report([], [], [], [e]));
    OnlyLastCategory(Over15Key, Over25Key, Over35Key, WinKey, e);
  }

  lemma OnlyLastCategory(a: string, b: string, c: string, d: string, e: Signal)
    ensures CategoryText((a, [])) + CategoryText((b, [])) + CategoryText((c, [])) + CategoryText((d, [e]))
         == Heading(a) + Heading(b) + Heading(c) + Heading(d) + EntryText(e)
  {
    EmptyCategory(a);
    EmptyCategory(b);
    EmptyCategory(c);
    assert [e][..0] == [];
    assert EntriesText([e]) == EntryText(e);
  }

  /** ... and when the winner is truthy and does not end in a space, the
      blank line closing the paragraph is all that trimming removes. */
  lemma RenderSingleWin(e: Signal)
    requires Truthy(e.winner) && !IsSpace(e.winner.value[|e.winner.value| - 1])
    ensures RenderText(Report([], [], [], [e])) == Headings() + EntryText(e)[..|EntryText(e)| - 2]
  {
    RawSingleWin(e);
    EntryTextEnd(e);
    var head, body := Headings(), EntryText(e);
    var raw := head + body;
    assert raw[0] == head[0] == 'O';
    assert raw[|raw| - 3] == body[|body| - 3];
    assert raw[|raw| - 2..] == body[|body| - 2..];
    TrimDropsBlankLine(raw);
    assert raw[..|raw| - 2] == head + body[..|body| - 2];
  }

  /** A paragraph with a truthy winner ends with the winner's last
      character, a line break and a blank line. */
  lemma EntryTextEnd(e: Signal)
    requires Truthy(e.winner)
    ensures var t := EntryText(e);
      && |t| >= 3
      && t[|t| - 3] == e.winner.value[|e.winner.value| - 1]
      && t[|t| - 2..] == "\n\n"
  {
    var w := WinnerLine(e);
    var t := EntryText(e);
    assert t == TeamsLine(e) + AnalysisLine(e) + w + "\n";
    assert w[|w| - 2] == e.winner.value[|e.winner.value| - 1];
    assert t[|t| - 3] == w[|w| - 2];
    assert t[|t| - 2] == w[|w| - 1] == '\n';
  }

  /** The inner `entries.forEach`: appends each signal's lines. */
  method AppendEntries(text: string, entries: seq<Signal>) returns (textOutput: string)
    ensures textOutput == text + EntriesText(entries)
  {
    textOutput := text;
    var j := 0;
    while j < |entries|
      invariant 0 <= j <= |entries|
      invariant textOutput == text + EntriesText(entries[..j])
    {
      var entry: Signal := entries[j];
      ghost var previous := textOutput;
      textOutput := textOutput + TeamsLine(entry);
      textOutput := textOutput + AnalysisLine(entry);
      if Truthy(entry.winner) {
        textOutput := textOutput + WinnerLine(entry);
      }
      textOutput := textOutput + "\n";
      AppendParagraph(previous, TeamsLine(entry), AnalysisLine(entry),
                      if Truthy(entry.winner) then WinnerLine(entry) else "");
      EntriesStep(entries, j);
      AppendAssociative(text, EntriesText(entries[..j]), EntryText(entry));
      j := j + 1;
    }
    assert entries[..j] == entries;
  }

  lemma EntriesStep(entries: seq<Signal>, j: nat)
    requires j < |entries|
    ensures EntriesText(entries[..j + 1]) == EntriesText(entries[..j]) + EntryText(entries[j])
  {
    assert entries[..j + 1][..j] == entries[..j];
  }

  lemma AppendParagraph(text: string, teams: string, analysis: string, winner: string)
    ensures text + teams + analysis + winner + "\n" == text + (teams + analysis + winner + "\n")
  {
  }

  /** `saveOutput`'s text loop: appends each bucket's heading and each
      signal's lines to `textOutput`, then trims. */
  method SaveText(r: Report) returns (text: string)
    ensures text == RenderText(r)
  {
    var categories := Categories(r);
    var textOutput := "";
    var i := 0;
    while i < |categories|
      invariant 0 <= i <= |categories|
      invariant textOutput == CategoriesText(categories[..i])
    {
      var category: string, entries: seq<Signal> := categories[i].0, categories[i].1;
      ghost var before := textOutput;
      textOutput := textOutput + Heading(category);
      textOutput := AppendEntries(textOutput, entries);
      assert categories[..i + 1][..i] == categories[..i];
      AppendAssociative(before, Heading(category), EntriesText(entries));
      i := i + 1;
    }
    assert categories[..i] == categories;
    text := Trim(textOutput);
  }
}
