/** The Opportunity Scout: ranks intake topics by collaboration potential. */
module OpportunityScout {
  import opened Wrappers
  import opened Text
  import opened Seqs
  import opened Claude
  import opened Intake
  import ResponseParser

  /** One ranked topic; the score is whatever the reply says (no 1-10 clamp). */
  datatype ScoutEntry = ScoutEntry(name: string, slug: string, score: int, reason: string,
                                   bothSidesEngaged: bool, sharedUnderlying: string)

  datatype ScoutResult = ScoutResult(rankedTopics: seq<ScoutEntry>, summary: string)

  function PartyCount(speeches: seq<TopicSpeech>, party: string): nat
  {
    |Filter(speeches, (s: TopicSpeech) => s.party == party)|
  }

  function Substantive(speeches: seq<TopicSpeech>): seq<TopicSpeech>
  {
    Filter(speeches, (s: TopicSpeech) => s.isSubstantive)
  }

  function PositionLine(s: TopicSpeech): string
  {
    "  [" + s.party + "] " + s.speaker + ": " + s.corePosition
  }

  function TopicBlock(t: IntakeTopic): string
  {
    "TOPIC: " + t.name + " (slug: " + t.slug + ")\n" +
    "  Republicans: " + NatToString(PartyCount(t.speeches, "R")) +
    ", Democrats: " + NatToString(PartyCount(t.speeches, "D")) + "\n" +
    "  Positions:\n" +
    Join(Map(Substantive(t.speeches), PositionLine), "\n")
  }

  function Prompt(topics: seq<IntakeTopic>): string
  {
    Join(Map(topics, TopicBlock), "\n\n---\n\n")
  }

  const Default := ScoutResult([], "Scout analysis failed to parse.")

  function Interpret(reply: string, parse: string -> Option<ScoutResult>): ScoutResult
  {
    ResponseParser.ParseOr(reply, parse, Default)
  }

  /** `runOpportunityScout`: a backend error propagates, a malformed reply ranks nothing. */
  function Run(topics: seq<IntakeTopic>, respond: Responder,
               parse: string -> Option<ScoutResult>): (r: Result<ScoutResult>)
    ensures r.Threw? <==> respond(ScoutRole, Prompt(topics)).Failure?
  {
    match Answer(respond, ScoutRole, Prompt(topics))
    case Threw => Threw
    case Ok(text) => Ok(Interpret(text, parse))
  }

  /**
   * A further speech that is not substantive changes only the party counts:
   * it is counted, but its position is not listed.
   */
  lemma NonSubstantiveSpeechOnlyCounted(t: IntakeTopic, x: TopicSpeech)
    requires !x.isSubstantive
    ensures var t' := t.(speeches := t.speeches + [x]);
            Substantive(t'.speeches) == Substantive(t.speeches) &&
            PartyCount(t'.speeches, "R") == PartyCount(t.speeches, "R") + (if x.party == "R" then 1 else 0) &&
            PartyCount(t'.speeches, "D") == PartyCount(t.speeches, "D") + (if x.party == "D" then 1 else 0)
  {
    FilterConcat(t.speeches, [x], (s: TopicSpeech) => s.isSubstantive);
    FilterConcat(t.speeches, [x], (s: TopicSpeech) => s.party == "R");
    FilterConcat(t.speeches, [x], (s: TopicSpeech) => s.party == "D");
  }

  /** Topic blocks appear in input order, separated by a rule line. */
  lemma PromptAppendsBlock(topics: seq<IntakeTopic>, t: IntakeTopic)
    requires topics != []
    ensures Prompt(topics + [t]) == Prompt(topics) + "\n\n---\n\n" + TopicBlock(t)
  {
    assert Map(topics + [t], TopicBlock) == Map(topics, TopicBlock) + [TopicBlock(t)];
    JoinSnoc(Map(topics, TopicBlock), TopicBlock(t), "\n\n---\n\n");
  }

  /** A reply that does not parse gives an empty ranking and the failure summary. */
  lemma UnparsableReplyRanksNothing(topics: seq<IntakeTopic>, respond: Responder,
                                    parse: string -> Option<ScoutResult>)
    requires Answer(respond, ScoutRole, Prompt(topics)).Ok?
    requires var span := ResponseParser.ExtractSpan(Answer(respond, ScoutRole, Prompt(topics)).value);
             span.None? || parse(span.value).None?
    ensures Run(topics, respond, parse) == Ok(ScoutResult([], "Scout analysis failed to parse."))
  {
  }

  /** Parsed scores are passed on as they are, out-of-range ones included. */
  lemma ScoresNotClamped(topics: seq<IntakeTopic>, respond: Responder,
                         parse: string -> Option<ScoutResult>, parsed: ScoutResult)
    requires Answer(respond, ScoutRole, Prompt(topics)).Ok?
    requires var span := ResponseParser.ExtractSpan(Answer(respond, ScoutRole, Prompt(topics)).value);
             span.Some? && parse(span.value) == Some(parsed)
    ensures Run(topics, respond, parse) == Ok(parsed)
  {
  }
}
