/** The Intake agent: speeches in, topics with per-speech annotations out. */
module Intake {
  import opened Wrappers
  import opened Text
  import opened Seqs
  import opened Claude
  import ResponseParser

  /** What the orchestrator hands the agent for one speech. */
  datatype SpeechInput = SpeechInput(granuleId: string, text: string, chamber: string)

  /** One speech's annotation inside a topic; party is "R", "D", "I" or "unknown". */
  datatype TopicSpeech = TopicSpeech(granuleId: string, speaker: string, party: string,
                                     chamber: string, isSubstantive: bool,
                                     corePosition: string, keyQuotes: seq<string>)

  datatype IntakeTopic = IntakeTopic(name: string, slug: string, speeches: seq<TopicSpeech>)

  datatype IntakeResult = IntakeResult(topics: seq<IntakeTopic>)

  /** Each speech body is cut to this many characters. */
  const BodyLimit: nat := 3000

  function SpeechBlock(s: SpeechInput): string
  {
    "--- SPEECH [" + s.granuleId + "] (" + s.chamber + ") ---\n" + Take(s.text, BodyLimit)
  }

  function Prompt(speeches: seq<SpeechInput>): string
  {
    Join(Map(speeches, SpeechBlock), "\n\n")
  }

  const Default := IntakeResult([])

  function Interpret(reply: string, parse: string -> Option<IntakeResult>): IntakeResult
  {
    ResponseParser.ParseOr(reply, parse, Default)
  }

  /** `runIntakeAgent`: a backend error propagates, a malformed reply gives no topics. */
  function Run(speeches: seq<SpeechInput>, respond: Responder,
               parse: string -> Option<IntakeResult>): (r: Result<IntakeResult>)
    ensures r.Threw? <==> respond(IntakeRole, Prompt(speeches)).Failure?
  {
    match Answer(respond, IntakeRole, Prompt(speeches))
    case Threw => Threw
    case Ok(text) => Ok(Interpret(text, parse))
  }

  /** `text.slice(0, 3000)`: a prefix of the body, the whole body when it is short enough. */
  function Truncated(s: SpeechInput): (r: SpeechInput)
    ensures r.granuleId == s.granuleId && r.chamber == s.chamber
    ensures r.text <= s.text && |r.text| <= BodyLimit
    ensures |s.text| <= BodyLimit ==> r.text == s.text
  {
    s.(text := Take(s.text, BodyLimit))
  }

  /** Only the first 3000 characters of each body reach the prompt. */
  lemma {:induction false} PromptSeesOnlyTruncatedBodies(speeches: seq<SpeechInput>)
    ensures Prompt(speeches) == Prompt(Map(speeches, Truncated))
  {
    var a := Map(speeches, SpeechBlock);
    var b := Map(Map(speeches, Truncated), SpeechBlock);
    assert forall i :: 0 <= i < |speeches| ==> Take(Take(speeches[i].text, BodyLimit), BodyLimit) == Take(speeches[i].text, BodyLimit);
    assert a == b;
  }

  /** Speech blocks appear in input order, separated by a blank line. */
  lemma PromptAppendsBlock(speeches: seq<SpeechInput>, s: SpeechInput)
    requires speeches != []
    ensures Prompt(speeches + [s]) == Prompt(speeches) + "\n\n" + SpeechBlock(s)
  {
    assert Map(speeches + [s], SpeechBlock) == Map(speeches, SpeechBlock) + [SpeechBlock(s)];
    JoinSnoc(Map(speeches, SpeechBlock), SpeechBlock(s), "\n\n");
  }

  /** A reply without a '{' before a '}' is not an error: it yields no topics. */
  lemma NoJsonGivesNoTopics(speeches: seq<SpeechInput>, respond: Responder,
                            parse: string -> Option<IntakeResult>)
    requires Answer(respond, IntakeRole, Prompt(speeches)).Ok?
    requires ResponseParser.ExtractSpan(Answer(respond, IntakeRole, Prompt(speeches)).value).None?
    ensures Run(speeches, respond, parse) == Ok(IntakeResult([]))
  {
  }
}
