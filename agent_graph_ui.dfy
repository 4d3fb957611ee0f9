/** The line pass of `format_markdown_output` in agent-graph-ui.py: the
    aggregator's report is split into lines, every line is stripped, lines
    that mention a report section become `## ` headings and (in the
    module-level copy only) bullet markers are normalised to `- `. */
module AgentGraphUi {
  import opened PyStr

  /** The section names a heading line mentions, in lower case. */
  const SectionKeywords: seq<string> :=
    ["executive summary", "key findings", "issues/errors", "recommendations", "analysis"]

  /** The heading test: the lower-cased line contains one of the section names. */
  predicate MentionsSection(line: string) {
    exists k :: 0 <= k < |SectionKeywords| && Contains(Lower(line), SectionKeywords[k])
  }

  /** The bullet test: the line starts with a hyphen or a bullet character. */
  predicate HasBulletMarker(line: string) {
    StartsWith(line, "-") || StartsWith(line, "•")
  }

  /** The numbered-list test: more than two characters, an ASCII digit first,
      then a full stop or a closing parenthesis. */
  predicate IsNumbered(line: string) {
    |line| > 2 && '0' <= line[0] <= '9' && (line[1] == '.' || line[1] == ')')
  }

  /** Which branch of the loop body a stripped line takes. The module-level
      copy has the bullet branch (`bullets`); the manager's copy does not. */
  datatype LineKind = Blank | Heading | Bullet | Numbered | Plain

  function KindOf(line: string, bullets: bool): LineKind {
    if line == "" then Blank
    else if MentionsSection(line) then Heading
    else if bullets && HasBulletMarker(line) then Bullet
    else if IsNumbered(line) then Numbered
    else Plain
  }

  /** The line that one iteration of the loop appends for input line `raw`. */
  function FormatLine(raw: string, bullets: bool): string {
    var line := Strip(raw);
    match KindOf(line, bullets)
    case Blank => ""
    case Heading => if StartsWith(line, "#") then line else "## " + line
    case Bullet => if StartsWith(line, "- ") then line else "- " + Strip(line[1..])
    case Numbered => line
    case Plain => line
  }

  /** `formatted_lines` once the loop has run over all of `lines`. */
  function FormatLines(lines: seq<string>, bullets: bool): (r: seq<string>) {
    seq(|lines|, k requires 0 <= k < |lines| => FormatLine(lines[k], bullets))
  }

  /** The loop's progress: one more line formatted is one more line appended. */
  lemma FormatLinesSnoc(lines: seq<string>, i: nat, bullets: bool)
    requires i < |lines|
    ensures FormatLines(lines[..i + 1], bullets) == FormatLines(lines[..i], bullets) + [FormatLine(lines[i], bullets)]
  {
  }

  /** The text `format_markdown_output` returns for `output`. */
  function FormatText(output: string, bullets: bool): string {
    Join(FormatLines(Split(output), bullets))
  }

  /** Module-level `format_markdown_output`, the pass after the aggregator's
      output has been extracted: headings and bullets. */
  method FormatMarkdownOutput(output: string) returns (formatted: string)
    ensures formatted == FormatText(output, true)
    ensures Split(formatted) == FormatLines(Split(output), true)
  {
    var lines := Split(output);
    var formattedLines: seq<string> := [];
    for i := 0 to |lines|
      invariant formattedLines == FormatLines(lines[..i], true)
    {
      FormatLinesSnoc(lines, i, true);
      var line := Strip(lines[i]);
      if line == "" {
        formattedLines := formattedLines + [""];
        continue;
      }
      if MentionsSection(line) {
        assert KindOf(line, true) == Heading;
        if !StartsWith(line, "#") {
          formattedLines := formattedLines + ["## " + line];
        } else {
          formattedLines := formattedLines + [line];
        }
      } else if StartsWith(line, "-") || StartsWith(line, "•") {
        if !StartsWith(line, "- ") {
          line := "- " + Strip(line[1..]);
        }
        formattedLines := formattedLines + [line];
      } else if IsNumbered(line) {
        formattedLines := formattedLines + [line];
      } else {
        formattedLines := formattedLines + [line];
      }
    }
    assert lines[..|lines|] == lines;
    formatted := Join(formattedLines);
    SplitFormatText(output, true);
  }

  /** `StrandsAgentManager.format_markdown_output`, the same pass without the
      bullet branch. */
  method ManagerFormatMarkdownOutput(output: string) returns (formatted: string)
    ensures formatted == FormatText(output, false)
    ensures Split(formatted) == FormatLines(Split(output), false)
  {
    var lines := Split(output);
    var formattedLines: seq<string> := [];
    for i := 0 to |lines|
      invariant formattedLines == FormatLines(lines[..i], false)
    {
      FormatLinesSnoc(lines, i, false);
      var line := Strip(lines[i]);
      if line == "" {
        formattedLines := formattedLines + [""];
        continue;
      }
      if MentionsSection(line) {
        assert KindOf(line, false) == Heading;
        if !StartsWith(line, "#") {
          formattedLines := formattedLines + ["## " + line];
        } else {
          formattedLines := formattedLines + [line];
        }
      } else if IsNumbered(line) {
        formattedLines := formattedLines + [line];
      } else {
        formattedLines := formattedLines + [line];
      }
    }
    assert lines[..|lines|] == lines;
    formatted := Join(formattedLines);
    SplitFormatText(output, false);
  }

  /** The per-line rules, stated on the stripped line. */
  lemma FormatLineRules(raw: string, bullets: bool)
    ensures var line, r := Strip(raw), FormatLine(raw, bullets);
      && (line == "" ==> r == "")
      && (line != "" && MentionsSection(line) ==>
            r == if line[0] == '#' then line else "## " + line)
      && (line != "" && !MentionsSection(line) && bullets && (line[0] == '-' || line[0] == '•') ==>
            r == if StartsWith(line, "- ") then line else "- " + Strip(line[1..]))
      && (!MentionsSection(line) && !(bullets && HasBulletMarker(line)) ==> r == line)
  {
    var line := Strip(raw);
    if line != "" {
      assert StartsWith(line, "#") <==> line[0] == '#' by {
        assert line[..1] == [line[0]];
      }
      assert HasBulletMarker(line) <==> line[0] == '-' || line[0] == '•' by {
        assert line[..1] == [line[0]];
      }
    }
  }

  /** The manager's copy only strips lines that are not headings. */
  lemma ManagerCopyOnlyStrips(raw: string)
    requires !MentionsSection(Strip(raw))
    ensures FormatLine(raw, false) == Strip(raw)
  {
  }

  /** The two copies differ exactly on a bullet line not already written `- `. */
  lemma CopiesDifferOnlyOnBullets(raw: string)
    ensures FormatLine(raw, false) != FormatLine(raw, true)
        <==> KindOf(Strip(raw), true) == Bullet && !StartsWith(Strip(raw), "- ")
  {
    if KindOf(Strip(raw), true) == Bullet && !StartsWith(Strip(raw), "- ") {
      RewrittenBulletDiffers(raw);
    } else {
      OtherLinesAgree(raw);
    }
  }

  /** A rewritten bullet starts with `- `, which the stripped line does not. */
  lemma RewrittenBulletDiffers(raw: string)
    requires KindOf(Strip(raw), true) == Bullet && !StartsWith(Strip(raw), "- ")
    ensures FormatLine(raw, false) != FormatLine(raw, true)
  {
    var line := Strip(raw);
    var r := "- " + Strip(line[1..]);
    assert FormatLine(raw, true) == r;
    assert KindOf(line, false) in {Numbered, Plain};
    assert FormatLine(raw, false) == line;
    assert r[..2] == "- ";
  }

  lemma OtherLinesAgree(raw: string)
    requires !(KindOf(Strip(raw), true) == Bullet && !StartsWith(Strip(raw), "- "))
    ensures FormatLine(raw, false) == FormatLine(raw, true)
  {
  }

  /** The heading rule is tried before the bullet rule: a line with a bullet
      marker that mentions a section (`-key findings`) becomes a heading. */
  lemma HeadingBeforeBullet(raw: string)
    requires MentionsSection(Strip(raw)) && HasBulletMarker(Strip(raw))
    ensures FormatLine(raw, true) == "## " + Strip(raw)
  {
  }

  /** `-key findings` becomes `## -key findings`, not a bullet. */
  lemma HeadingBeforeBulletExample(line: string)
    requires line == "-key findings"
    ensures FormatLine(line, true) == "## " + line
  {
    DashKeyFindingsMentionsSection(line);
    assert Stripped(line);
    assert line[..1] == "-";
    HeadingBeforeBullet(line);
  }

  lemma DashKeyFindingsMentionsSection(line: string)
    requires line == "-key findings"
    ensures MentionsSection(line)
  {
    var key := SectionKeywords[1];
    assert line == "-" + key;
    KeyFindingsIsLower(key);
    DashIsLower();
    KeywordAfterLowerMentions("-", 1);
  }

  lemma DashIsLower()
    ensures Lower("-") == "-"
  {
    assert "-"[1..] == [];
  }

  /** A lower-case prefix followed by a lower-case section name mentions that section. */
  lemma KeywordAfterLowerMentions(p: string, k: nat)
    requires k < |SectionKeywords|
    requires Lower(p) == p && Lower(SectionKeywords[k]) == SectionKeywords[k]
    ensures MentionsSection(p + SectionKeywords[k])
  {
    var key := SectionKeywords[k];
    LowerAppend(p, key);
    assert Contains(key, key) by {
      assert key[..|key|] == key;
    }
    ContainsPrepend(p, key, key);
  }

  lemma KeyFindingsIsLower(key: string)
    requires key == "key findings"
    ensures Lower(key) == key
  {
    LowerPointwise(key, key);
  }

  /** `Key Findings` becomes `## Key Findings`, and `## Key Findings` stays. */
  lemma SectionNameExample(line: string, bullets: bool)
    requires line == "Key Findings"
    ensures FormatLine(line, bullets) == "## " + line
    ensures FormatLine("## " + line, bullets) == "## " + line
  {
    LowerPointwise(line, SectionKeywords[1]);
    assert Contains(Lower(line), SectionKeywords[1]);
    assert MentionsSection(line);
    assert Stripped(line);
    assert KindOf(line, bullets) == Heading;
    HeadingIsFixed(line, bullets);
  }

  /** No line the pass produces holds a line feed. */
  lemma NoLineFeed(raw: string, bullets: bool)
    requires '\n' !in raw
    ensures '\n' !in FormatLine(raw, bullets)
  {
    var line := Strip(raw);
    StripKeepsOut(raw, '\n');
    var kind := KindOf(line, bullets);
    if kind == Bullet && !StartsWith(line, "- ") {
      assert FormatLine(raw, bullets) == "- " + Strip(line[1..]);
      assert '\n' !in line[1..];
      StripKeepsOut(line[1..], '\n');
    } else if kind == Heading && !StartsWith(line, "#") {
      assert FormatLine(raw, bullets) == "## " + line;
    } else if kind == Blank {
      assert FormatLine(raw, bullets) == "";
    } else {
      assert FormatLine(raw, bullets) == line;
    }
  }

  /** The output has exactly as many lines as the input, and output line `k`
      is input line `k` passed through `FormatLine`. */
  lemma SplitFormatText(output: string, bullets: bool)
    ensures Split(FormatText(output, bullets)) == FormatLines(Split(output), bullets)
    ensures |Split(FormatText(output, bullets))| == |Split(output)|
  {
    var lines := Split(output);
    var formatted := FormatLines(lines, bullets);
    SplitNoLineFeed(output);
    forall k | 0 <= k < |formatted| ensures '\n' !in formatted[k] {
      NoLineFeed(lines[k], bullets);
    }
    SplitJoin(formatted);
  }

  /** Every section keyword is non-empty and starts with a letter. */
  lemma KeywordsStartWithLetter(k: nat)
    requires k < |SectionKeywords|
    ensures SectionKeywords[k] != [] && 'a' <= SectionKeywords[k][0] <= 'z'
  {
  }

  /** `## ` in front of a line keeps it mentioning a section. */
  lemma HeadingPrefixKeepsSection(line: string)
    requires MentionsSection(line)
    ensures MentionsSection("## " + line)
  {
    var k :| 0 <= k < |SectionKeywords| && Contains(Lower(line), SectionKeywords[k]);
    LowerAppend("## ", line);
    assert Lower("## ") == "## ";
    ContainsPrepend("## ", Lower(line), SectionKeywords[k]);
  }

  /** A piece of a line that mentions no section mentions none either. */
  lemma SliceAddsNoSection(line: string, i: nat, j: nat)
    requires i <= j <= |line|
    requires !MentionsSection(line)
    ensures !MentionsSection(line[i..j])
  {
    if MentionsSection(line[i..j]) {
      var k :| 0 <= k < |SectionKeywords| && Contains(Lower(line[i..j]), SectionKeywords[k]);
      LowerSlice(line, i, j);
      ContainsSlice(Lower(line), i, j, SectionKeywords[k]);
      assert false;
    }
  }

  /** `- ` in front of a line that mentions no section does not make it mention one. */
  lemma DashAddsNoSection(line: string)
    requires !MentionsSection(line)
    ensures !MentionsSection("- " + line)
  {
    if MentionsSection("- " + line) {
      var k :| 0 <= k < |SectionKeywords| && Contains(Lower("- " + line), SectionKeywords[k]);
      KeywordsStartWithLetter(k);
      LowerAppend("- ", line);
      assert Lower("- ") == "- ";
      ContainsStripPrefix("- ", Lower(line), SectionKeywords[k]);
      assert false;
    }
  }

  /** A line the heading rule prefixed with `## ` is a heading that already
      starts with `#`. */
  lemma HeadingIsFixed(line: string, bullets: bool)
    requires line != "" && Stripped(line) && MentionsSection(line)
    ensures FormatLine("## " + line, bullets) == "## " + line
  {
    var r := "## " + line;
    assert r[0] == '#' && r[|r| - 1] == line[|line| - 1];
    assert Stripped(r);
    HeadingPrefixKeepsSection(line);
    assert r[..1] == "#";
    assert KindOf(r, bullets) == Heading;
  }

  /** A line the bullet rule rewrote to `- ` plus a stripped remainder is
      left alone by the bullet rule. */
  lemma BulletIsFixed(rest: string)
    requires rest != "" && Stripped(rest) && !MentionsSection("- " + rest)
    ensures FormatLine("- " + rest, true) == "- " + rest
  {
    var r := "- " + rest;
    assert r[0] == '-' && r[|r| - 1] == rest[|rest| - 1];
    assert Stripped(r);
    assert r[..2] == "- " && r[..1] == "-";
    assert KindOf(r, true) == Bullet;
  }

  /** The bare marker `-` is rewritten to `- `, which is rewritten to itself. */
  lemma BareBulletIsFixed()
    ensures FormatLine("- ", true) == "- "
  {
    assert LeadingSpace("- ") == 0;
    assert TrailingSpace("- ") == 1;
    var line := Strip("- ");
    assert line == "-";
    assert !MentionsSection(line) by {
      if MentionsSection(line) {
        var k :| 0 <= k < |SectionKeywords| && Contains(Lower(line), SectionKeywords[k]);
        KeywordsStartWithLetter(k);
        assert Lower(line) == "-" + [];
        ContainsStripPrefix("-", [], SectionKeywords[k]);
        assert false;
      }
    }
    assert line[1..] == "";
  }

  /** A stripped line that the pass would keep as it is, is kept as it is. */
  lemma KeptLineIsFixed(line: string, bullets: bool)
    requires Stripped(line)
    requires KindOf(line, bullets) in {Blank, Numbered, Plain}
      || (KindOf(line, bullets) == Heading && StartsWith(line, "#"))
      || (KindOf(line, bullets) == Bullet && StartsWith(line, "- "))
    ensures FormatLine(line, bullets) == line
  {
  }

  lemma RewrittenBulletIsFixed(line: string)
    requires line != "" && Stripped(line) && !MentionsSection(line)
    ensures FormatLine("- " + Strip(line[1..]), true) == "- " + Strip(line[1..])
  {
    var tail := line[1..];
    assert tail == line[1..|line|];
    SliceAddsNoSection(line, 1, |line|);
    var a, b := StripSlice(tail);
    var rest := Strip(tail);
    SliceAddsNoSection(tail, a, b);
    if rest == "" {
      assert "- " + rest == "- ";
      BareBulletIsFixed();
    } else {
      DashAddsNoSection(rest);
      BulletIsFixed(rest);
    }
  }

  /** Formatting a formatted line changes nothing: the `#` guard keeps a
      heading from getting a second `## `, the `- ` guard keeps a bullet
      from being rewritten again. */
  lemma FormatLineIdempotent(raw: string, bullets: bool)
    ensures FormatLine(FormatLine(raw, bullets), bullets) == FormatLine(raw, bullets)
  {
    var line := Strip(raw);
    var kind := KindOf(line, bullets);
    if kind == Heading && !StartsWith(line, "#") {
      assert FormatLine(raw, bullets) == "## " + line;
      HeadingIsFixed(line, bullets);
    } else if kind == Bullet && !StartsWith(line, "- ") {
      assert bullets;
      assert FormatLine(raw, bullets) == "- " + Strip(line[1..]);
      RewrittenBulletIsFixed(line);
    } else if kind == Blank {
      assert FormatLine(raw, bullets) == "";
      KeptLineIsFixed("", bullets);
    } else {
      assert FormatLine(raw, bullets) == line;
      KeptLineIsFixed(line, bullets);
    }
  }

  /** Running the pass on its own output returns the same text, for both copies. */
  lemma FormatTextIdempotent(output: string, bullets: bool)
    ensures FormatText(FormatText(output, bullets), bullets) == FormatText(output, bullets)
  {
    var lines := Split(output);
    var once := FormatLines(lines, bullets);
    SplitFormatText(output, bullets);
    var twice := FormatLines(once, bullets);
    forall k | 0 <= k < |once| ensures twice[k] == once[k] {
      FormatLineIdempotent(lines[k], bullets);
    }
    assert twice == once;
  }
}
