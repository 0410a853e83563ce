/** The Policy Drafter: positions, compromise paths and guard flags in, a prose framework out. */
module PolicyDrafter {
  import opened Wrappers
  import opened Text
  import opened Seqs
  import opened Claude
  import opened DemocracyGuard

  function SeverityName(s: Severity): string
  {
    match s
    case Info => "info"
    case Warning => "warning"
    case Critical => "critical"
  }

  /** One flag as the drafter sees it: severity, principle and concern only. */
  function FlagLine(f: DemocracyFlag): string
  {
    "- [" + SeverityName(f.severity) + "] " + f.principle + ": " + f.concern
  }

  const FlagsHeader := "DEMOCRACY GUARD FLAGS (you MUST address these):\n"
  const NoFlags := "DEMOCRACY GUARD: No flags raised."

  function FlagText(flags: seq<DemocracyFlag>): string
  {
    if |flags| > 0 then FlagsHeader + Join(Map(flags, FlagLine), "\n") else NoFlags
  }

  /** The prompt's sections, in order; they are separated by blank lines. */
  function Sections(topic: string, redPosition: string, bluePosition: string,
                    compromisePaths: seq<string>, flags: seq<DemocracyFlag>): seq<string>
  {
    ["TOPIC: " + topic,
     "CONSERVATIVE POSITION:\n" + redPosition,
     "PROGRESSIVE POSITION:\n" + bluePosition,
     PathsHeader + PathList(compromisePaths),
     FlagText(flags),
     "Draft a compromise policy framework that addresses both sides' core concerns."]
  }

  const PathsHeader := "COMPROMISE PATHS IDENTIFIED:\n"

  function Prompt(topic: string, redPosition: string, bluePosition: string,
                  compromisePaths: seq<string>, flags: seq<DemocracyFlag>): string
  {
    Join(Sections(topic, redPosition, bluePosition, compromisePaths, flags), "\n\n")
  }

  /** `runPolicyDrafter`: the backend's text, unparsed. */
  function Run(topic: string, redPosition: string, bluePosition: string,
               compromisePaths: seq<string>, flags: seq<DemocracyFlag>,
               respond: Responder): (r: Result<string>)
    ensures var p := Prompt(topic, redPosition, bluePosition, compromisePaths, flags);
            (r.Threw? <==> respond(DrafterRole, p).Failure?) &&
            (respond(DrafterRole, p).Content? ==> r == Ok(FirstText(respond(DrafterRole, p).blocks)))
  {
    Answer(respond, DrafterRole, Prompt(topic, redPosition, bluePosition, compromisePaths, flags))
  }

  /** The flag text is the fixed "no flags" sentence exactly when there are no flags. */
  lemma NoFlagsSentence(flags: seq<DemocracyFlag>)
    ensures FlagText(flags) == NoFlags <==> flags == []
  {
    if flags != [] {
      assert FlagText(flags)[15] == ' ' && NoFlags[15] == ':';
    }
  }

  /** With flags, the k-th flag's line sits under the header, and the lines keep the flags' order. */
  lemma FlagLinesInOrder(flags: seq<DemocracyFlag>, k: nat)
    requires k < |flags|
    ensures var lines := Map(flags, FlagLine);
            OccursAt(FlagText(flags), FlagLine(flags[k]), |FlagsHeader| + JoinOffset(lines, "\n", k)) &&
            (k + 1 < |flags| ==>
               JoinOffset(lines, "\n", k) + |FlagLine(flags[k])| <= JoinOffset(lines, "\n", k + 1))
  {
    var lines := Map(flags, FlagLine);
    assert FlagText(flags) == FlagsHeader + Join(lines, "\n");
    assert lines[k] == FlagLine(flags[k]);
    JoinItemAfter(FlagsHeader, lines, "\n", k);
    if k + 1 < |flags| {
      JoinItemsInOrder(lines, "\n", k, k + 1);
    }
  }

  /**
   * Neither a flag's suggestion nor its source reaches the prompt: flags that
   * agree on severity, principle and concern give the same prompt.
   */
  lemma SuggestionNotSent(topic: string, redPosition: string, bluePosition: string,
                          compromisePaths: seq<string>, flags: seq<DemocracyFlag>, flags': seq<DemocracyFlag>)
    requires |flags| == |flags'|
    requires forall k :: 0 <= k < |flags| ==>
               flags[k].severity == flags'[k].severity && flags[k].principle == flags'[k].principle &&
               flags[k].concern == flags'[k].concern
    ensures Prompt(topic, redPosition, bluePosition, compromisePaths, flags) ==
            Prompt(topic, redPosition, bluePosition, compromisePaths, flags')
  {
    assert Map(flags, FlagLine) == Map(flags', FlagLine);
    assert FlagText(flags) == FlagText(flags');
    assert Sections(topic, redPosition, bluePosition, compromisePaths, flags) ==
           Sections(topic, redPosition, bluePosition, compromisePaths, flags');
  }

  /** The k-th compromise path (from 1) appears in the prompt as the line "k. path", inside the paths section. */
  lemma PathInPrompt(topic: string, redPosition: string, bluePosition: string,
                     compromisePaths: seq<string>, flags: seq<DemocracyFlag>, k: nat)
    requires 1 <= k <= |compromisePaths|
    ensures var xs := Sections(topic, redPosition, bluePosition, compromisePaths, flags);
            OccursAt(Prompt(topic, redPosition, bluePosition, compromisePaths, flags),
                     PathLine(k, compromisePaths[k - 1]),
                     JoinOffset(xs, "\n\n", 3) + |PathsHeader| +
                     JoinOffset(Numbered(compromisePaths, "", ". "), "\n", k - 1))
  {
    var xs := Sections(topic, redPosition, bluePosition, compromisePaths, flags);
    var at := JoinOffset(Numbered(compromisePaths, "", ". "), "\n", k - 1);
    PathListed(compromisePaths, k);
    assert xs[3] == PathsHeader + PathList(compromisePaths);
    InSection(xs, "\n\n", 3, PathsHeader, PathList(compromisePaths), PathLine(k, compromisePaths[k - 1]), at);
    assert Prompt(topic, redPosition, bluePosition, compromisePaths, flags) == Join(xs, "\n\n");
  }

  /** The flag text is the fifth section, after the compromise paths. */
  lemma FlagsAfterPaths(topic: string, redPosition: string, bluePosition: string,
                        compromisePaths: seq<string>, flags: seq<DemocracyFlag>)
    ensures var xs := Sections(topic, redPosition, bluePosition, compromisePaths, flags);
            var p := Prompt(topic, redPosition, bluePosition, compromisePaths, flags);
            OccursAt(p, FlagText(flags), JoinOffset(xs, "\n\n", 4)) &&
            JoinOffset(xs, "\n\n", 3) + |xs[3]| <= JoinOffset(xs, "\n\n", 4)
  {
    var xs := Sections(topic, redPosition, bluePosition, compromisePaths, flags);
    JoinItemAt(xs, "\n\n", 4);
    JoinItemsInOrder(xs, "\n\n", 3, 4);
  }
}
