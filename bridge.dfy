/** The Bridge agent: the two steelmanned positions in, a structured common-ground analysis out. */
module Bridge {
  import opened Wrappers
  import opened Text
  import opened Claude
  import ResponseParser

  /** The parsed reply: whatever object the span parses to, without shape checks. */
  datatype BridgeResult = BridgeResult(sharedValues: seq<string>, sharedGoals: seq<string>,
                                       falseDichotomies: seq<string>, genuineDifferences: seq<string>,
                                       compromisePaths: seq<string>, summary: string)

  const RedHeader := "CONSERVATIVE POSITION (steelmanned):\n"
  const BlueHeader := "PROGRESSIVE POSITION (steelmanned):\n"
  const Closing := "Find the genuine common ground between these positions. Be specific and actionable."

  function Prompt(topic: string, redPosition: string, bluePosition: string): string
  {
    "TOPIC: " + topic + "\n\n" + RedHeader + redPosition + "\n\n" +
    BlueHeader + bluePosition + "\n\n" + Closing
  }

  const Default := BridgeResult([], [], [], [], [], "Analysis failed to parse.")

  function Interpret(reply: string, parse: string -> Option<BridgeResult>): BridgeResult
  {
    ResponseParser.ParseOr(reply, parse, Default)
  }

  /** `runBridgeAgent`: a backend error propagates, a malformed reply gives the empty analysis. */
  function Run(topic: string, redPosition: string, bluePosition: string, respond: Responder,
               parse: string -> Option<BridgeResult>): (r: Result<BridgeResult>)
    ensures r.Threw? <==> respond(BridgeRole, Prompt(topic, redPosition, bluePosition)).Failure?
  {
    match Answer(respond, BridgeRole, Prompt(topic, redPosition, bluePosition))
    case Threw => Threw
    case Ok(text) => Ok(Interpret(text, parse))
  }

  /** The conservative position, under its header, comes before the progressive one. */
  lemma PromptLayout(topic: string, redPosition: string, bluePosition: string)
    ensures var p := Prompt(topic, redPosition, bluePosition);
            StartsWith(p, "TOPIC: " + topic + "\n\n") &&
            exists i: nat, j: nat ::
              OccursAt(p, RedHeader, i) && OccursAt(p, redPosition, i + |RedHeader|) &&
              OccursAt(p, BlueHeader, j) && OccursAt(p, bluePosition, j + |BlueHeader|) &&
              i + |RedHeader| + |redPosition| <= j
  {
    TwoSectionsInOrder("TOPIC: " + topic + "\n\n", RedHeader, redPosition, "\n\n",
                       BlueHeader, bluePosition, "\n\n", Closing);
  }

  /** A reply with no span, or one that does not parse, lists nothing and carries the failure summary. */
  lemma UnparsableReplyFindsNothing(reply: string, parse: string -> Option<BridgeResult>)
    requires var span := ResponseParser.ExtractSpan(reply);
             span.None? || parse(span.value).None?
    ensures var r := Interpret(reply, parse);
            r.sharedValues == [] && r.sharedGoals == [] && r.falseDichotomies == [] &&
            r.genuineDifferences == [] && r.compromisePaths == [] &&
            r.summary == "Analysis failed to parse."
  {
  }
}
