/**
 * The quick-answer resolver: a case-insensitive keyword match of the query
 * against the knowledge base, first match wins, that either formats a canned
 * answer or reports that there is none.
 */
module QuickAnswer {
  import opened Wrappers
  import opened Text
  import opened Knowledge

  const PlankStepsHeader: string := "HardiePlank installation key steps:"
  const PlankToolsPrefix: string := "Tools needed for HardiePlank installation: "
  const GeneralHeader: string := "General James Hardie " + "installation guidelines:"

  /** The lines `f"{i+1}. {step}"` for `i, step in enumerate(steps)`. */
  function NumberedLines(steps: seq<string>): seq<string> {
    seq(|steps|, i requires 0 <= i < |steps| => NatToString(i + 1) + ". " + steps[i])
  }

  /** The lines `f"• {step}"` for each step. */
  function BulletLines(items: seq<string>): seq<string> {
    seq(|items|, i requires 0 <= i < |items| => "• " + items[i])
  }

  predicate MentionsPlank(query: string) { Contains(Lower(query), "hardieplank") }
  predicate MentionsTrim(query: string) { Contains(Lower(query), "hardietrim") }
  predicate MentionsInstall(query: string) { Contains(Lower(query), "install") }
  predicate MentionsTool(query: string) { Contains(Lower(query), "tool") }

  /** The alternative keyword "installation" is subsumed by "install". */
  lemma InstallationMentionsInstall(s: string)
    ensures Contains(s, "installation") ==> Contains(s, "install")
  {
    if Contains(s, "installation") {
      assert "installation" == "install" + "ation";
      ContainsLonger(s, "install", "ation");
    }
  }

  /** The canned answer for `query`, or `None` when no keyword matches. */
  function GetQuickAnswer(query: string): (r: Option<string>)
    ensures r.Some? ==> |r.value| > 0
    ensures r.None? <==> !MentionsPlank(query) && !MentionsTrim(query) && !MentionsInstall(query)
  {
    var q := Lower(query);
    InstallationMentionsInstall(q);
    if Contains(q, "hardieplank") then
      if Contains(q, "install") then
        Some(PlankStepsHeader + "\n" + Join("\n", NumberedLines(PlankInstallation)))
      else if Contains(q, "tool") then
        Some(PlankToolsPrefix + Join(", ", PlankTools))
      else
        Some(PlankDescription)
    else if Contains(q, "hardietrim") then
      Some(TrimDescription)
    else if Contains(q, "install") || Contains(q, "installation") then
      Some(GeneralHeader + "\n" + Join("\n", BulletLines(GeneralInstallation)))
    else
      None
  }

  // ---------------------------------------------------------------- branches

  predicate NoNewline(s: string) {
    '\n' !in s
  }

  /** The general guidelines open with a letter no other answer opens with. */
  lemma AnswersStartDifferently()
    ensures GeneralHeader[0] == 'G'
    ensures PlankStepsHeader[0] == 'H' && PlankToolsPrefix[0] == 'T'
    ensures PlankDescription[0] == 'H' && TrimDescription[0] == 'H'
  {
  }

  lemma GeneralHeaderHasNoNewline()
    ensures NoNewline(GeneralHeader)
  {
  }

  /** With a first line `header`, the lines of `header + "\n" + "\n".join(lines)`. */
  lemma {:induction false} HeaderThenLines(header: string, lines: seq<string>)
    requires |lines| >= 1 && NoNewline(header)
    requires forall k :: 0 <= k < |lines| ==> NoNewline(lines[k])
    ensures Split('\n', header + "\n" + Join("\n", lines)) == [header] + lines
  {
    var all := [header] + lines;
    assert all[1..] == lines;
    assert Join("\n", all) == header + "\n" + Join("\n", lines);
    SplitJoin('\n', all);
  }

  /** Numbering single-line steps keeps them single lines. */
  lemma NumberedLinesAreSingleLines(steps: seq<string>)
    requires forall k :: 0 <= k < |steps| ==> NoNewline(steps[k])
    ensures forall k :: 0 <= k < |steps| ==> NoNewline(NumberedLines(steps)[k])
  {
    forall k | 0 <= k < |steps| ensures NoNewline(NumberedLines(steps)[k]) {
      var digits := NatToString(k + 1);
      assert NumberedLines(steps)[k] == digits + ". " + steps[k];
    }
  }

  /** "hardieplank" with "install": a header line, then the six steps numbered 1 to 6. */
  lemma PlankInstallAnswer(query: string)
    requires MentionsPlank(query) && MentionsInstall(query)
    ensures GetQuickAnswer(query).Some?
    ensures var lines := Split('\n', GetQuickAnswer(query).value);
      |lines| == 1 + |PlankInstallation| && lines[0] == PlankStepsHeader &&
      forall k :: 1 <= k < |lines| ==> lines[k] == NatToString(k) + ". " + PlankInstallation[k - 1]
  {
    PlankStepsAreSingleLines();
    NumberedLinesAreSingleLines(PlankInstallation);
    HeaderThenLines(PlankStepsHeader, NumberedLines(PlankInstallation));
  }

  /** "hardieplank" with "tool" but no "install": the tools, comma-separated, after a fixed sentence. */
  lemma PlankToolsAnswer(query: string)
    requires MentionsPlank(query) && MentionsTool(query) && !MentionsInstall(query)
    ensures var t := PlankTools;
      GetQuickAnswer(query) == Some(PlankToolsPrefix
        + t[0] + ", " + t[1] + ", " + t[2] + ", " + t[3] + ", " + t[4])
  {
    var t := PlankTools;
    assert t[4..] == [t[4]];
    assert t[3..][1..] == t[4..];
    assert t[2..][1..] == t[3..];
    assert t[1..][1..] == t[2..];
    calc {
      PlankToolsPrefix + Join(", ", t);
      PlankToolsPrefix + (t[0] + ", " + (t[1] + ", " + (t[2] + ", " + (t[3] + ", " + t[4]))));
      PlankToolsPrefix + t[0] + ", " + t[1] + ", " + t[2] + ", " + t[3] + ", " + t[4];
    }
  }

  /** "hardieplank" with neither "install" nor "tool": the product description. */
  lemma PlankDescriptionAnswer(query: string)
    requires MentionsPlank(query) && !MentionsInstall(query) && !MentionsTool(query)
    ensures GetQuickAnswer(query) == Some(PlankDescription)
  {
  }

  /** "hardietrim" without "hardieplank": the HardieTrim description, whatever else the query says. */
  lemma TrimAnswer(query: string)
    requires MentionsTrim(query) && !MentionsPlank(query)
    ensures GetQuickAnswer(query) == Some(TrimDescription)
  {
  }

  /** "install" with neither product name: a header line, then the five guidelines as bullets. */
  lemma GeneralAnswer(query: string)
    requires MentionsInstall(query) && !MentionsPlank(query) && !MentionsTrim(query)
    ensures GetQuickAnswer(query).Some?
    ensures var lines := Split('\n', GetQuickAnswer(query).value);
      |lines| == 1 + |GeneralInstallation| && lines[0] == GeneralHeader &&
      forall k :: 1 <= k < |lines| ==> lines[k] == "• " + GeneralInstallation[k - 1]
  {
    var bullets := BulletLines(GeneralInstallation);
    GeneralStepsAreSingleLines();
    GeneralHeaderHasNoNewline();
    HeaderThenLines(GeneralHeader, bullets);
  }

  /** The general guidelines are the answer exactly when "install" occurs and neither product name does. */
  lemma GeneralAnswerExactly(query: string)
    ensures (GetQuickAnswer(query).Some? && IsPrefix(GeneralHeader, GetQuickAnswer(query).value))
        <==> MentionsInstall(query) && !MentionsPlank(query) && !MentionsTrim(query)
  {
    var r := GetQuickAnswer(query);
    AnswersStartDifferently();
    if r.Some? && IsPrefix(GeneralHeader, r.value) {
      assert r.value[0] == r.value[..|GeneralHeader|][0];
    }
  }

  // ---------------------------------------------------------------- case and determinism

  /** The answer depends on the query only through its lowercased form. */
  lemma QuickAnswerIgnoresCase(query: string)
    ensures GetQuickAnswer(Lower(query)) == GetQuickAnswer(query)
  {
    LowerIdempotent(query);
  }
}
