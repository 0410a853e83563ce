/** The Democracy Guard: reviews the positions and compromise paths against democratic principles. */
module DemocracyGuard {
  import opened Wrappers
  import opened Text
  import opened Claude
  import ResponseParser

  datatype Source = RedSource | BlueSource | BridgeSource | GeneralSource

  datatype Severity = Info | Warning | Critical

  datatype DemocracyFlag = DemocracyFlag(source: Source, principle: string, concern: string,
                                         severity: Severity, suggestion: string)

  /** `passed` is whatever the reply says; it is not derived from the flags. */
  datatype DemocracyResult = DemocracyResult(passed: bool, flags: seq<DemocracyFlag>, summary: string)

  const PathsHeader := "PROPOSED COMPROMISE PATHS:\n"

  /** The prompt's sections, in order; they are separated by blank lines. */
  function Sections(topic: string, redPosition: string, bluePosition: string, bridgeSummary: string,
                    compromisePaths: seq<string>): seq<string>
  {
    ["TOPIC: " + topic,
     "CONSERVATIVE POSITION:\n" + redPosition,
     "PROGRESSIVE POSITION:\n" + bluePosition,
     "BRIDGE ANALYSIS SUMMARY:\n" + bridgeSummary,
     PathsHeader + PathList(compromisePaths),
     "Review all of the above against democratic principles. Flag any concerns."]
  }

  function Prompt(topic: string, redPosition: string, bluePosition: string, bridgeSummary: string,
                  compromisePaths: seq<string>): string
  {
    Join(Sections(topic, redPosition, bluePosition, bridgeSummary, compromisePaths), "\n\n")
  }

  /** The fail-open default: no flags and a pass. */
  const Default := DemocracyResult(true, [], "Democracy check analysis failed to parse.")

  function Interpret(reply: string, parse: string -> Option<DemocracyResult>): DemocracyResult
  {
    ResponseParser.ParseOr(reply, parse, Default)
  }

  /** `runDemocracyGuard`: a backend error propagates, a malformed reply passes. */
  function Run(topic: string, redPosition: string, bluePosition: string, bridgeSummary: string,
               compromisePaths: seq<string>, respond: Responder,
               parse: string -> Option<DemocracyResult>): (r: Result<DemocracyResult>)
    ensures r.Threw? <==>
            respond(GuardRole, Prompt(topic, redPosition, bluePosition, bridgeSummary, compromisePaths)).Failure?
  {
    match Answer(respond, GuardRole, Prompt(topic, redPosition, bluePosition, bridgeSummary, compromisePaths))
    case Threw => Threw
    case Ok(text) => Ok(Interpret(text, parse))
  }

  /**
   * The sections occur in the prompt in the order topic, conservative,
   * progressive, bridge summary, paths, closing instruction.
   */
  lemma PromptLayout(topic: string, redPosition: string, bluePosition: string, bridgeSummary: string,
                     compromisePaths: seq<string>)
    ensures var xs := Sections(topic, redPosition, bluePosition, bridgeSummary, compromisePaths);
            var p := Prompt(topic, redPosition, bluePosition, bridgeSummary, compromisePaths);
            (forall k :: 0 <= k < |xs| ==> OccursAt(p, xs[k], JoinOffset(xs, "\n\n", k))) &&
            (forall k :: 0 <= k < |xs| - 1 ==>
               JoinOffset(xs, "\n\n", k) + |xs[k]| <= JoinOffset(xs, "\n\n", k + 1))
  {
    var xs := Sections(topic, redPosition, bluePosition, bridgeSummary, compromisePaths);
    forall k | 0 <= k < |xs| ensures OccursAt(Join(xs, "\n\n"), xs[k], JoinOffset(xs, "\n\n", k)) {
      JoinItemAt(xs, "\n\n", k);
    }
    forall k | 0 <= k < |xs| - 1 ensures JoinOffset(xs, "\n\n", k) + |xs[k]| <= JoinOffset(xs, "\n\n", k + 1) {
      JoinItemsInOrder(xs, "\n\n", k, k + 1);
    }
  }

  /** The k-th compromise path (from 1) appears in the prompt as the line "k. path", inside the paths section. */
  lemma PathInPrompt(topic: string, redPosition: string, bluePosition: string, bridgeSummary: string,
                     compromisePaths: seq<string>, k: nat)
    requires 1 <= k <= |compromisePaths|
    ensures var xs := Sections(topic, redPosition, bluePosition, bridgeSummary, compromisePaths);
            OccursAt(Prompt(topic, redPosition, bluePosition, bridgeSummary, compromisePaths),
                     PathLine(k, compromisePaths[k - 1]),
                     JoinOffset(xs, "\n\n", 4) + |PathsHeader| +
                     JoinOffset(Numbered(compromisePaths, "", ". "), "\n", k - 1))
  {
    PathListed(compromisePaths, k);
    InSection(Sections(topic, redPosition, bluePosition, bridgeSummary, compromisePaths), "\n\n", 4,
              PathsHeader, PathList(compromisePaths), PathLine(k, compromisePaths[k - 1]),
              JoinOffset(Numbered(compromisePaths, "", ". "), "\n", k - 1));
  }

  /** Without a parsable span the guard fails open: it passes and raises no flag. */
  lemma UnparsableReplyPasses(reply: string, parse: string -> Option<DemocracyResult>)
    requires var span := ResponseParser.ExtractSpan(reply);
             span.None? || parse(span.value).None?
    ensures Interpret(reply, parse).passed && Interpret(reply, parse).flags == []
  {
  }

  /** A parsed verdict is kept as it is: a pass with critical flags stays a pass. */
  lemma PassedTakenVerbatim(reply: string, parse: string -> Option<DemocracyResult>, v: DemocracyResult)
    requires var span := ResponseParser.ExtractSpan(reply);
             span.Some? && parse(span.value) == Some(v)
    ensures Interpret(reply, parse).passed == v.passed
  {
  }
}
