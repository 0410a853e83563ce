/**
 * The daily brief pipeline (`runPipeline` and `processTopic`): select the
 * day's longest speeches, let intake group them into topics, let the scout
 * pick one, run the steelman, bridge, guard and drafter agents on it, store
 * one brief and mark the day's speeches processed.
 *
 * The pure functions below say what a run does for a given list of fetched
 * speeches and a given backend oracle; the methods do it step by step against
 * the store and the backend and are proved to match.
 */
module Pipeline {
  import opened Wrappers
  import opened Text
  import opened Seqs
  import opened StableSort
  import opened Claude
  import opened Db
  import Intake
  import OpportunityScout
  import RedSteelman
  import BlueSteelman
  import Bridge
  import DemocracyGuard
  import PolicyDrafter

  type Topic = Intake.IntakeTopic
  type TopicSpeech = Intake.TopicSpeech
  type ScoutResult = OpportunityScout.ScoutResult
  type ScoutEntry = OpportunityScout.ScoutEntry

  /** `JSON.parse` of the extracted span, for each agent with structured output. */
  datatype Parsers = Parsers(intake: string -> Option<Intake.IntakeResult>,
                             scout: string -> Option<ScoutResult>,
                             bridge: string -> Option<Bridge.BridgeResult>,
                             guard: string -> Option<DemocracyGuard.DemocracyResult>)

  /**
   * The agents' prompt builders, as values. The run is stated for any
   * builders, so that its proofs do not unfold the prompt texts; `Live()`
   * holds the agents' own, and with those every stage asks and reads its
   * agent exactly as that agent's `Run` does (`IntakeAndScoutAsAgents` and
   * the lemmas after it).
   */
  datatype Prompts = Prompts(intake: seq<Intake.SpeechInput> -> string,
                             scout: seq<Topic> -> string,
                             red: (string, seq<string>, seq<string>) -> string,
                             blue: (string, seq<string>, seq<string>) -> string,
                             bridge: (string, string, string) -> string,
                             guard: (string, string, string, string, seq<string>) -> string,
                             drafter: (string, string, string, seq<string>,
                                       seq<DemocracyGuard.DemocracyFlag>) -> string)

  function Live(): Prompts
  {
    Prompts(Intake.Prompt, OpportunityScout.Prompt, RedSteelman.Prompt, BlueSteelman.Prompt,
            Bridge.Prompt, DemocracyGuard.Prompt, PolicyDrafter.Prompt)
  }

  /** `now()` at the moment the k-th transcript message is pushed. */
  type Clock = nat -> string

  const BatchLimit: nat := 20
  const RedPlaceholder := "No Republican speeches on this topic today."
  const BluePlaceholder := "No Democratic speeches on this topic today."
  const OneSidedNote := " Note: Only one party addressed this topic today."

  // ---------------------------------------------------------------- selection

  function TextLength(row: SpeechRow): int
  {
    |row.plainText|
  }

  function BatchSize(fetched: seq<SpeechRow>): nat
  {
    if |fetched| < BatchLimit then |fetched| else BatchLimit
  }

  /** The speeches handed to intake: longest first, at most 20. */
  function Batch(fetched: seq<SpeechRow>): (r: seq<SpeechRow>)
    ensures |r| <= BatchLimit && |r| <= |fetched| && (|fetched| > 0 ==> |r| > 0)
    ensures forall x :: x in r ==> x in fetched
    ensures |fetched| <= BatchLimit ==> multiset(r) == multiset(fetched)
  {
    var sorted := SortDesc(fetched, TextLength);
    assert forall x :: x in sorted[..BatchSize(fetched)] ==> x in multiset(sorted);
    assert |fetched| <= BatchLimit ==> sorted[..BatchSize(fetched)] == sorted;
    sorted[..BatchSize(fetched)]
  }

  /** The fetched speeches intake does not see. */
  function Dropped(fetched: seq<SpeechRow>): seq<SpeechRow>
  {
    SortDesc(fetched, TextLength)[BatchSize(fetched)..]
  }

  function AsInput(row: SpeechRow): Intake.SpeechInput
  {
    Intake.SpeechInput(row.granuleId, row.plainText, row.chamber)
  }

  function IntakeInputs(fetched: seq<SpeechRow>): seq<Intake.SpeechInput>
  {
    Map(Batch(fetched), AsInput)
  }

  predicate IsSubstantive(s: TopicSpeech)
  {
    s.isSubstantive
  }

  predicate HasSubstantive(t: Topic)
  {
    Any(t.speeches, IsSubstantive)
  }

  function SubstantiveTopics(topics: seq<Topic>): seq<Topic>
  {
    Filter(topics, HasSubstantive)
  }

  predicate SlugListed(topics: seq<Topic>, slug: string)
  {
    exists i :: 0 <= i < |topics| && topics[i].slug == slug
  }

  /** `st => substantiveTopics.some(t => t.slug === st.slug)`. */
  function ListedIn(substantive: seq<Topic>): ScoutEntry -> bool
  {
    (e: ScoutEntry) => SlugListed(substantive, e.slug)
  }

  function Score(e: ScoutEntry): int
  {
    e.score
  }

  /** The scout result after `rankedTopics.sort` by descending score, which happens in place. */
  function Ranked(s: ScoutResult): ScoutResult
  {
    s.(rankedTopics := SortDesc(s.rankedTopics, Score))
  }

  /** The scout's result as the rest of the run sees it; `None` when the scout throws. */
  function ScoutOutcome(substantive: seq<Topic>, respond: Responder, parsers: Parsers, prompts: Prompts)
    : Option<ScoutResult>
  {
    match Answer(respond, ScoutRole, prompts.scout(substantive))
    case Threw => None
    case Ok(text) => Some(Ranked(OpportunityScout.Interpret(text, parsers.scout)))
  }

  /** The first substantive topic carrying `slug`, if any. */
  function TopicWithSlug(substantive: seq<Topic>, slug: string): Option<Topic>
  {
    FindFirst(substantive, (t: Topic) => t.slug == slug)
  }

  /** The topic the run analyses. */
  function SelectTopic(substantive: seq<Topic>, scout: Option<ScoutResult>): (r: Topic)
    requires substantive != []
    ensures r in substantive
    ensures scout.None? ==> r == substantive[0]
  {
    var best := if scout.Some? then
                  FindFirst(scout.value.rankedTopics, ListedIn(substantive))
                else None;
    var pick := match best
                case None => None
                case Some(b) => TopicWithSlug(substantive, b.slug);
    pick.GetOr(substantive[0])
  }

  // ------------------------------------------------------------ processTopic

  /** `scoutResult?.rankedTopics.find(t => t.slug === topic.slug)`. */
  function ScoutInfo(scout: Option<ScoutResult>, topic: Topic): Option<ScoutEntry>
  {
    match scout
    case None => None
    case Some(s) => FindFirst(s.rankedTopics, (e: ScoutEntry) => e.slug == topic.slug)
  }

  /** The core positions of the topic's speeches tagged exactly `party`, in topic order. */
  function Positions(topic: Topic, party: string): seq<string>
  {
    Map(Filter(topic.speeches, (s: TopicSpeech) => s.party == party), (s: TopicSpeech) => s.corePosition)
  }

  /** A side's positions are those of its speeches, every one of them and nothing else. */
  lemma PositionsOfParty(topic: Topic, party: string)
    ensures var r := Positions(topic, party);
            |r| <= |topic.speeches| &&
            (forall p :: p in r ==>
               exists i :: 0 <= i < |topic.speeches| && topic.speeches[i].party == party &&
                           topic.speeches[i].corePosition == p) &&
            (forall i :: 0 <= i < |topic.speeches| && topic.speeches[i].party == party ==>
               topic.speeches[i].corePosition in r)
  {
    var tagged := Filter(topic.speeches, (s: TopicSpeech) => s.party == party);
    var r := Positions(topic, party);
    forall p | p in r
      ensures exists i :: 0 <= i < |topic.speeches| && topic.speeches[i].party == party &&
                          topic.speeches[i].corePosition == p
    {
      var k :| 0 <= k < |r| && r[k] == p;
      assert tagged[k] in tagged;
      var i :| 0 <= i < |topic.speeches| && topic.speeches[i] == tagged[k];
    }
    forall i | 0 <= i < |topic.speeches| && topic.speeches[i].party == party
      ensures topic.speeches[i].corePosition in r
    {
      var k :| 0 <= k < |tagged| && tagged[k] == topic.speeches[i];
      assert r[k] == topic.speeches[i].corePosition;
    }
  }

  /** A side with no speeches is replaced by its one placeholder sentence. */
  function OrPlaceholder(positions: seq<string>, placeholder: string): (r: seq<string>)
    ensures positions != [] ==> r == positions
    ensures positions == [] ==> r == [placeholder]
  {
    if |positions| > 0 then positions else [placeholder]
  }

  function IntakeNote(name: string, redCount: nat, blueCount: nat): string
  {
    "Identified topic: " + name + ". Found " + NatToString(redCount) + " Republican and " +
    NatToString(blueCount) + " Democratic speeches." +
    (if redCount == 0 || blueCount == 0 then OneSidedNote else "")
  }

  function ScoutNote(e: ScoutEntry): string
  {
    "Collaboration score: " + IntToString(e.score) + "/10. " + e.reason +
    (if e.sharedUnderlying != "" then " Shared underlying value: " + e.sharedUnderlying else "")
  }

  /** `conversation.push(...)`: the message is stamped with the clock at its position. */
  function Push(conversation: seq<AgentMessage>, agent: string, role: string, content: string,
                clock: Clock): seq<AgentMessage>
  {
    conversation + [AgentMessage(agent, role, content, clock(|conversation|))]
  }

  /** The first transcript entries: the intake note, then the scout note if the scout ranked the topic. */
  function Opening(topic: Topic, scoutInfo: Option<ScoutEntry>, clock: Clock): seq<AgentMessage>
  {
    var intake := Push([], "Intake Agent", "intake",
                       IntakeNote(topic.name, |Positions(topic, "R")|, |Positions(topic, "D")|), clock);
    if scoutInfo.Some? then Push(intake, "Opportunity Scout", "scout", ScoutNote(scoutInfo.value), clock)
    else intake
  }

  function Role(m: AgentMessage): string
  {
    m.role
  }

  predicate InTopic(topic: Topic, granuleId: string)
  {
    exists i :: 0 <= i < |topic.speeches| && topic.speeches[i].granuleId == granuleId
  }

  /** `sourceSpeechIds`: the ids of the fetched rows whose granule the topic cites, in fetch order. */
  function SourceIds(topic: Topic, fetched: seq<SpeechRow>): seq<nat>
  {
    Map(Filter(fetched, (row: SpeechRow) => InTopic(topic, row.granuleId)), (row: SpeechRow) => row.id)
  }

  /** The source ids are those of the fetched rows the topic cites, every one of them and nothing else. */
  lemma SourceIdsCited(topic: Topic, fetched: seq<SpeechRow>)
    ensures var r := SourceIds(topic, fetched);
            |r| <= |fetched| &&
            (forall id :: id in r ==>
               exists j :: 0 <= j < |fetched| && fetched[j].id == id && InTopic(topic, fetched[j].granuleId)) &&
            (forall j :: 0 <= j < |fetched| && InTopic(topic, fetched[j].granuleId) ==> fetched[j].id in r)
  {
    var cited := Filter(fetched, (row: SpeechRow) => InTopic(topic, row.granuleId));
    var r := SourceIds(topic, fetched);
    forall id | id in r
      ensures exists j :: 0 <= j < |fetched| && fetched[j].id == id && InTopic(topic, fetched[j].granuleId)
    {
      var k :| 0 <= k < |r| && r[k] == id;
      assert cited[k] in cited;
      var j :| 0 <= j < |fetched| && fetched[j] == cited[k];
    }
    forall j | 0 <= j < |fetched| && InTopic(topic, fetched[j].granuleId)
      ensures fetched[j].id in r
    {
      var k :| 0 <= k < |cited| && cited[k] == fetched[j];
      assert r[k] == fetched[j].id;
    }
  }

  /** `allSpeeches.find(db => db.granuleId === granuleId)`. */
  function RowFor(fetched: seq<SpeechRow>, granuleId: string): Option<SpeechRow>
  {
    FindFirst(fetched, (row: SpeechRow) => row.granuleId == granuleId)
  }

  /** `a || b || null` over an optional database speaker, where "" is falsy. */
  function SpeakerFor(s: TopicSpeech, row: Option<SpeechRow>): (r: Option<string>)
    ensures r.Some? ==> r.value != ""
    ensures s.speaker != "" ==> r == Some(s.speaker)
    ensures s.speaker == "" && row.Some? && row.value.speaker.Some? && row.value.speaker.value != "" ==>
              r == row.value.speaker
    ensures r.None? <==> s.speaker == "" &&
                         (row.None? || row.value.speaker.None? || row.value.speaker.value == "")
  {
    if s.speaker != "" then Some(s.speaker)
    else if row.Some? && row.value.speaker.Some? && row.value.speaker.value != "" then row.value.speaker
    else None
  }

  function MetaFor(fetched: seq<SpeechRow>, s: TopicSpeech): SpeechMeta
  {
    var row := RowFor(fetched, s.granuleId);
    SpeechMeta(s.granuleId, SpeakerFor(s, row), s.party, s.chamber,
               if row.Some? then row.value.title else "", s.corePosition)
  }

  /** `sourceSpeechMeta`: one entry per topic speech, in topic order. */
  function SourceMeta(topic: Topic, fetched: seq<SpeechRow>): seq<SpeechMeta>
  {
    Map(topic.speeches, (s: TopicSpeech) => MetaFor(fetched, s))
  }

  /** One attribution per topic speech, in topic order, with the title of the first fetched row of its granule. */
  lemma SourceMetaPerSpeech(topic: Topic, fetched: seq<SpeechRow>)
    ensures var r := SourceMeta(topic, fetched);
            |r| == |topic.speeches| &&
            forall i :: 0 <= i < |r| ==>
              var s := topic.speeches[i];
              var row := RowFor(fetched, s.granuleId);
              r[i].granuleId == s.granuleId && r[i].party == s.party && r[i].chamber == s.chamber &&
              r[i].corePosition == s.corePosition && r[i].speaker == SpeakerFor(s, row) &&
              r[i].title == (if row.Some? then row.value.title else "")
  {
  }

  function CollaborationScore(scoutInfo: Option<ScoutEntry>): (r: Option<string>)
    ensures r.Some? <==> scoutInfo.Some?
  {
    if scoutInfo.Some? then Some(IntToString(scoutInfo.value.score) + "/10") else None
  }

  function CollaborationReason(scoutInfo: Option<ScoutEntry>): (r: Option<string>)
    ensures r.Some? <==> scoutInfo.Some? && scoutInfo.value.reason != ""
  {
    if scoutInfo.Some? && scoutInfo.value.reason != "" then Some(scoutInfo.value.reason) else None
  }


  /** What the topic stages share: the topic, the run's inputs and the scout's entry for the topic. */
  datatype Job = Job(topic: Topic, date: int, fetched: seq<SpeechRow>, scoutInfo: Option<ScoutEntry>,
                     parsers: Parsers, prompts: Prompts, clock: Clock)

  /** The brief record `processTopic` inserts once every agent has answered. */
  function MakeBrief(job: Job, redPosition: string, bluePosition: string, bridge: Bridge.BridgeResult,
                     guard: DemocracyGuard.DemocracyResult, draft: string,
                     conversation: seq<AgentMessage>): Brief
  {
    Brief(job.date, job.topic.name, job.topic.slug, redPosition, bluePosition, bridge.sharedValues,
          bridge.genuineDifferences, bridge.compromisePaths, guard.summary, !guard.passed, draft,
          conversation, CollaborationScore(job.scoutInfo), CollaborationReason(job.scoutInfo),
          SourceMeta(job.topic, job.fetched), SourceIds(job.topic, job.fetched))
  }

  /**
   * What (part of) `processTopic` does: the backend calls it makes, and
   * whether it throws (`Threw`), returns false (`Ok(None)`) or saves a brief.
   */
  datatype TopicRun = TopicRun(calls: seq<Call>, outcome: Result<Option<Brief>>)

  /** The calls of `first`, then those of `rest`, ending as `rest` ends. */
  function Then(first: seq<Call>, rest: TopicRun): TopicRun
  {
    TopicRun(first + rest.calls, rest.outcome)
  }

  function DraftPrompt(job: Job, red: string, blue: string, bridge: Bridge.BridgeResult,
                       guard: DemocracyGuard.DemocracyResult): string
  {
    job.prompts.drafter(job.topic.name, red, blue, bridge.compromisePaths, guard.flags)
  }

  /** The drafter, then the brief. */
  function DraftStage(job: Job, red: string, blue: string, bridge: Bridge.BridgeResult,
                      guard: DemocracyGuard.DemocracyResult, conversation: seq<AgentMessage>,
                      respond: Responder): TopicRun
  {
    var prompt := DraftPrompt(job, red, blue, bridge, guard);
    match Answer(respond, DrafterRole, prompt)
    case Threw => TopicRun([Call(DrafterRole, prompt)], Threw)
    case Ok(draft) =>
      TopicRun([Call(DrafterRole, prompt)],
               Ok(Some(MakeBrief(job, red, blue, bridge, guard, draft,
                                 Push(conversation, "Policy Drafter", "drafter", draft, job.clock)))))
  }

  function GuardPrompt(job: Job, red: string, blue: string, bridge: Bridge.BridgeResult): string
  {
    job.prompts.guard(job.topic.name, red, blue, bridge.summary, bridge.compromisePaths)
  }

  /** The guard's verdict as the run reads it; `Threw` when its backend call fails. */
  function GuardAnswer(job: Job, red: string, blue: string, bridge: Bridge.BridgeResult, respond: Responder)
    : Result<DemocracyGuard.DemocracyResult>
  {
    match Answer(respond, GuardRole, GuardPrompt(job, red, blue, bridge))
    case Threw => Threw
    case Ok(text) => Ok(DemocracyGuard.Interpret(text, job.parsers.guard))
  }

  /** The democracy guard, then the drafter. */
  function GuardStage(job: Job, red: string, blue: string, bridge: Bridge.BridgeResult,
                      conversation: seq<AgentMessage>, respond: Responder): TopicRun
  {
    var call := Call(GuardRole, GuardPrompt(job, red, blue, bridge));
    match GuardAnswer(job, red, blue, bridge, respond)
    case Threw => TopicRun([call], Threw)
    case Ok(guard) =>
      Then([call], DraftStage(job, red, blue, bridge, guard,
                              Push(conversation, "Democracy Guard", "guard", guard.summary, job.clock), respond))
  }

  /** The bridge's analysis as the run reads it; `Threw` when its backend call fails. */
  function BridgeAnswer(job: Job, red: string, blue: string, respond: Responder): Result<Bridge.BridgeResult>
  {
    match Answer(respond, BridgeRole, job.prompts.bridge(job.topic.name, red, blue))
    case Threw => Threw
    case Ok(text) => Ok(Bridge.Interpret(text, job.parsers.bridge))
  }

  /** The bridge, then the guard. */
  function BridgeStage(job: Job, red: string, blue: string, conversation: seq<AgentMessage>,
                       respond: Responder): TopicRun
  {
    var call := Call(BridgeRole, job.prompts.bridge(job.topic.name, red, blue));
    match BridgeAnswer(job, red, blue, respond)
    case Threw => TopicRun([call], Threw)
    case Ok(bridge) =>
      Then([call], GuardStage(job, red, blue, bridge,
                              Push(conversation, "Bridge Agent", "bridge", bridge.summary, job.clock), respond))
  }

  function SteelCalls(job: Job, redIn: seq<string>, blueIn: seq<string>): seq<Call>
  {
    [Call(RedRole, job.prompts.red(job.topic.name, redIn, blueIn)),
     Call(BlueRole, job.prompts.blue(job.topic.name, blueIn, redIn))]
  }

  /** Both steelmen (both requests go out before either answer is awaited), then the bridge. */
  function SteelStage(job: Job, redIn: seq<string>, blueIn: seq<string>, conversation: seq<AgentMessage>,
                      respond: Responder): TopicRun
  {
    var redRun := Answer(respond, RedRole, job.prompts.red(job.topic.name, redIn, blueIn));
    var blueRun := Answer(respond, BlueRole, job.prompts.blue(job.topic.name, blueIn, redIn));
    if redRun.Threw? || blueRun.Threw? then TopicRun(SteelCalls(job, redIn, blueIn), Threw)
    else
      var next := Push(Push(conversation, "Red Agent", "red", redRun.value, job.clock),
                       "Blue Agent", "blue", blueRun.value, job.clock);
      Then(SteelCalls(job, redIn, blueIn), BridgeStage(job, redRun.value, blueRun.value, next, respond))
  }

  /** `processTopic`. */
  function TopicSpec(topic: Topic, date: int, fetched: seq<SpeechRow>, scout: Option<ScoutResult>,
                     respond: Responder, parsers: Parsers, prompts: Prompts, clock: Clock): TopicRun
  {
    var job := Job(topic, date, fetched, ScoutInfo(scout, topic), parsers, prompts, clock);
    var red := Positions(topic, "R");
    var blue := Positions(topic, "D");
    if red == [] && blue == [] then TopicRun([], Ok(None))
    else SteelStage(job, OrPlaceholder(red, RedPlaceholder), OrPlaceholder(blue, BluePlaceholder),
                    Opening(topic, job.scoutInfo, clock), respond)
  }

  /** The brief a topic run saved, if any. */
  function Saved(t: TopicRun): Option<Brief>
  {
    if t.outcome.Ok? then t.outcome.value else None
  }

  /** A `processTopic` result agrees with a run's outcome. */
  predicate Reports(r: Result<bool>, outcome: Result<Option<Brief>>)
  {
    (r.Threw? <==> outcome.Threw?) && (r.Ok? && outcome.Ok? ==> (r.value <==> outcome.value.Some?))
  }

  // ------------------------------------------------------------- runPipeline

  /**
   * What `runPipeline` does for the speeches fetched for the day: its calls,
   * its result (`Threw` when intake's backend call fails), whether it marks
   * the fetched speeches processed, and the brief it saves.
   */
  datatype PipelineRun = PipelineRun(calls: seq<Call>, result: Result<nat>, marks: bool, brief: Option<Brief>)

  /** Intake's topics as the run reads them; `Threw` when its backend call fails. */
  function IntakeAnswer(fetched: seq<SpeechRow>, respond: Responder, parsers: Parsers, prompts: Prompts)
    : Result<Intake.IntakeResult>
  {
    match Answer(respond, IntakeRole, prompts.intake(IntakeInputs(fetched)))
    case Threw => Threw
    case Ok(text) => Ok(Intake.Interpret(text, parsers.intake))
  }

  /** The run after intake has named substantive topics: the scout, the choice and `processTopic`. */
  function TopicStage(substantive: seq<Topic>, fetched: seq<SpeechRow>, date: int, respond: Responder,
                      parsers: Parsers, prompts: Prompts, clock: Clock): PipelineRun
    requires substantive != []
  {
    var scout := ScoutOutcome(substantive, respond, parsers, prompts);
    var run := TopicSpec(SelectTopic(substantive, scout), date, fetched, scout, respond, parsers, prompts, clock);
    var brief := Saved(run);
    PipelineRun([Call(ScoutRole, prompts.scout(substantive))] + run.calls, Ok(if brief.Some? then 1 else 0), true,
                brief)
  }

  function PipelineSpec(fetched: seq<SpeechRow>, date: int, respond: Responder, parsers: Parsers,
                        prompts: Prompts, clock: Clock): PipelineRun
  {
    if fetched == [] then PipelineRun([], Ok(0), false, None)
    else
      var intakeCall := Call(IntakeRole, prompts.intake(IntakeInputs(fetched)));
      match IntakeAnswer(fetched, respond, parsers, prompts)
      case Threw => PipelineRun([intakeCall], Threw, false, None)
      case Ok(intake) =>
        var substantive := SubstantiveTopics(intake.topics);
        if substantive == [] then PipelineRun([intakeCall], Ok(0), false, None)
        else
          var rest := TopicStage(substantive, fetched, date, respond, parsers, prompts, clock);
          rest.(calls := [intakeCall] + rest.calls)
  }

  function IdsOf(rows: seq<SpeechRow>): set<nat>
  {
    set i | 0 <= i < |rows| :: rows[i].id
  }

  function AsSeq(b: Option<Brief>): seq<Brief>
  {
    if b.Some? then [b.value] else []
  }

  // ----------------------------------------------------------------- methods

  method DraftStep(store: Store, backend: Backend, job: Job, red: string, blue: string,
                   bridge: Bridge.BridgeResult, guard: DemocracyGuard.DemocracyResult,
                   conversation: seq<AgentMessage>)
    returns (r: Result<bool>)
    modifies store, backend
    ensures var spec := DraftStage(job, red, blue, bridge, guard, conversation, backend.respond);
            backend.calls == old(backend.calls) + spec.calls && Reports(r, spec.outcome) &&
            store.briefs == old(store.briefs) + AsSeq(Saved(spec))
    ensures store.speeches == old(store.speeches) && store.nextSpeechId == old(store.nextSpeechId)
  {
    var reply := backend.CallAgent(DrafterRole, DraftPrompt(job, red, blue, bridge, guard));
    if reply.Threw? {
      return Threw;
    }
    var policyDraft := reply.value;
    var transcript := conversation + [AgentMessage("Policy Drafter", "drafter", policyDraft, job.clock(|conversation|))];
    var brief := Brief(job.date, job.topic.name, job.topic.slug, red, blue, bridge.sharedValues,
                       bridge.genuineDifferences, bridge.compromisePaths, guard.summary, !guard.passed,
                       policyDraft, transcript, CollaborationScore(job.scoutInfo),
                       CollaborationReason(job.scoutInfo), SourceMeta(job.topic, job.fetched),
                       SourceIds(job.topic, job.fetched));
    store.InsertBrief(brief);
    return Ok(true);
  }

  method GuardStep(store: Store, backend: Backend, job: Job, red: string, blue: string,
                   bridge: Bridge.BridgeResult, conversation: seq<AgentMessage>)
    returns (r: Result<bool>)
    modifies store, backend
    ensures var spec := GuardStage(job, red, blue, bridge, conversation, backend.respond);
            backend.calls == old(backend.calls) + spec.calls && Reports(r, spec.outcome) &&
            store.briefs == old(store.briefs) + AsSeq(Saved(spec))
    ensures store.speeches == old(store.speeches) && store.nextSpeechId == old(store.nextSpeechId)
  {
    var reply := backend.CallAgent(GuardRole, GuardPrompt(job, red, blue, bridge));
    if reply.Threw? {
      return Threw;
    }
    var guard := DemocracyGuard.Interpret(reply.value, job.parsers.guard);
    var next := conversation + [AgentMessage("Democracy Guard", "guard", guard.summary, job.clock(|conversation|))];
    assert next == Push(conversation, "Democracy Guard", "guard", guard.summary, job.clock);
    r := DraftStep(store, backend, job, red, blue, bridge, guard, next);
  }

  method BridgeStep(store: Store, backend: Backend, job: Job, red: string, blue: string,
                    conversation: seq<AgentMessage>)
    returns (r: Result<bool>)
    modifies store, backend
    ensures var spec := BridgeStage(job, red, blue, conversation, backend.respond);
            backend.calls == old(backend.calls) + spec.calls && Reports(r, spec.outcome) &&
            store.briefs == old(store.briefs) + AsSeq(Saved(spec))
    ensures store.speeches == old(store.speeches) && store.nextSpeechId == old(store.nextSpeechId)
  {
    var reply := backend.CallAgent(BridgeRole, job.prompts.bridge(job.topic.name, red, blue));
    if reply.Threw? {
      return Threw;
    }
    var bridge := Bridge.Interpret(reply.value, job.parsers.bridge);
    var next := conversation + [AgentMessage("Bridge Agent", "bridge", bridge.summary, job.clock(|conversation|))];
    assert next == Push(conversation, "Bridge Agent", "bridge", bridge.summary, job.clock);
    ghost var calls := backend.calls;
    r := GuardStep(store, backend, job, red, blue, bridge, next);
    ghost var call := Call(BridgeRole, job.prompts.bridge(job.topic.name, red, blue));
    ghost var rest := GuardStage(job, red, blue, bridge, next, backend.respond);
    assert BridgeAnswer(job, red, blue, backend.respond) == Ok(bridge);
    assert BridgeStage(job, red, blue, conversation, backend.respond) == Then([call], rest);
    assert calls == old(backend.calls) + [call];
    AppendAssoc(old(backend.calls), [call], rest.calls);
  }

  /** Two appended calls are one appended pair; used for the steelman stage's call log. */
  lemma AppendTwo<T>(s: seq<T>, x: T, y: T)
    ensures s + [x] + [y] == s + [x, y]
  {
  }

  /** Regroups a call log; used where a stage's calls are followed by the next stage's. */
  lemma AppendAssoc<T>(a: seq<T>, b: seq<T>, c: seq<T>)
    ensures a + b + c == a + (b + c)
  {
  }

  method SteelStep(store: Store, backend: Backend, job: Job, redIn: seq<string>, blueIn: seq<string>,
                   conversation: seq<AgentMessage>)
    returns (r: Result<bool>)
    modifies store, backend
    ensures var spec := SteelStage(job, redIn, blueIn, conversation, backend.respond);
            backend.calls == old(backend.calls) + spec.calls && Reports(r, spec.outcome) &&
            store.briefs == old(store.briefs) + AsSeq(Saved(spec))
    ensures store.speeches == old(store.speeches) && store.nextSpeechId == old(store.nextSpeechId)
  {
    var name := job.topic.name;
    var redReply := backend.CallAgent(RedRole, job.prompts.red(name, redIn, blueIn));
    var blueReply := backend.CallAgent(BlueRole, job.prompts.blue(name, blueIn, redIn));
    ghost var steel := SteelCalls(job, redIn, blueIn);
    AppendTwo(old(backend.calls), steel[0], steel[1]);
    if redReply.Threw? || blueReply.Threw? {
      return Threw;
    }
    var n := |conversation|;
    var next := conversation + [AgentMessage("Red Agent", "red", redReply.value, job.clock(n)),
                                AgentMessage("Blue Agent", "blue", blueReply.value, job.clock(n + 1))];
    assert next == Push(Push(conversation, "Red Agent", "red", redReply.value, job.clock),
                        "Blue Agent", "blue", blueReply.value, job.clock);
    r := BridgeStep(store, backend, job, redReply.value, blueReply.value, next);
    ghost var rest := BridgeStage(job, redReply.value, blueReply.value, next, backend.respond);
    AppendAssoc(old(backend.calls), steel, rest.calls);
  }

  /** `processTopic`: `Threw` stands for a rejected promise. */
  method ProcessTopic(store: Store, backend: Backend, topic: Topic, date: int, fetched: seq<SpeechRow>,
                      scout: Option<ScoutResult>, parsers: Parsers, prompts: Prompts, clock: Clock)
    returns (r: Result<bool>)
    modifies store, backend
    ensures var spec := TopicSpec(topic, date, fetched, scout, backend.respond, parsers, prompts, clock);
            backend.calls == old(backend.calls) + spec.calls && Reports(r, spec.outcome) &&
            store.briefs == old(store.briefs) + AsSeq(Saved(spec))
    ensures store.speeches == old(store.speeches) && store.nextSpeechId == old(store.nextSpeechId)
  {
    var scoutInfo := ScoutInfo(scout, topic);
    var red := Positions(topic, "R");
    var blue := Positions(topic, "D");
    if |red| == 0 && |blue| == 0 {
      return Ok(false);
    }
    var conversation: seq<AgentMessage> := [];
    conversation := conversation +
      [AgentMessage("Intake Agent", "intake", IntakeNote(topic.name, |red|, |blue|), clock(|conversation|))];
    if scoutInfo.Some? {
      conversation := conversation +
        [AgentMessage("Opportunity Scout", "scout", ScoutNote(scoutInfo.value), clock(|conversation|))];
    }
    assert conversation == Opening(topic, scoutInfo, clock);
    var job := Job(topic, date, fetched, scoutInfo, parsers, prompts, clock);
    r := SteelStep(store, backend, job, OrPlaceholder(red, RedPlaceholder), OrPlaceholder(blue, BluePlaceholder),
                   conversation);
  }

  /** The scout call and the topic choice, with the fallbacks of `runPipeline`. */
  method PickTopic(backend: Backend, substantive: seq<Topic>, parsers: Parsers, prompts: Prompts)
    returns (scoutResult: Option<ScoutResult>, topTopic: Topic)
    requires substantive != []
    modifies backend
    ensures backend.calls == old(backend.calls) + [Call(ScoutRole, prompts.scout(substantive))]
    ensures scoutResult == ScoutOutcome(substantive, backend.respond, parsers, prompts)
    ensures topTopic == SelectTopic(substantive, scoutResult)
  {
    scoutResult := None;
    var reply := backend.CallAgent(ScoutRole, prompts.scout(substantive));
    if reply.Threw? {
      topTopic := substantive[0];
      return;
    }
    var ranked := Ranked(OpportunityScout.Interpret(reply.value, parsers.scout));
    scoutResult := Some(ranked);
    var best := FindFirst(ranked.rankedTopics, ListedIn(substantive));
    if best.Some? {
      var slug := best.value.slug;
      var found := TopicWithSlug(substantive, slug);
      assert SlugListed(substantive, slug);
      var i :| 0 <= i < |substantive| && substantive[i].slug == slug;
      topTopic := found.value;
    } else {
      topTopic := substantive[0];
    }
  }

  lemma MarkOneMore(m: map<nat, SpeechRow>, ids: set<nat>, id: nat)
    ensures MarkAll(MarkAll(m, ids), {id}) == MarkAll(m, ids + {id})
  {
  }

  /** The closing loop of `runPipeline`: every fetched speech is marked processed, one update at a time. */
  method MarkFetched(store: Store, rows: seq<SpeechRow>)
    requires store.Valid()
    modifies store
    ensures store.Valid()
    ensures store.speeches == MarkAll(old(store.speeches), IdsOf(rows))
    ensures store.briefs == old(store.briefs) && store.nextSpeechId == old(store.nextSpeechId)
  {
    for k := 0 to |rows|
      invariant store.Valid()
      invariant store.speeches == MarkAll(old(store.speeches), IdsOf(rows[..k]))
      invariant store.briefs == old(store.briefs) && store.nextSpeechId == old(store.nextSpeechId)
    {
      MarkOneMore(old(store.speeches), IdsOf(rows[..k]), rows[k].id);
      assert IdsOf(rows[..k + 1]) == IdsOf(rows[..k]) + {rows[k].id} by {
        assert forall i :: 0 <= i < k ==> rows[..k + 1][i] == rows[..k][i];
        assert rows[..k + 1][k] == rows[k];
      }
      store.MarkProcessed(rows[k].id);
    }
    assert rows[..|rows|] == rows;
  }

  /**
   * The scout, the topic choice and `processTopic`, once intake has named
   * substantive topics: the brief counter and the closing loop.
   */
  method AnalyseTopics(store: Store, backend: Backend, substantive: seq<Topic>, fetched: seq<SpeechRow>,
                       date: int, parsers: Parsers, prompts: Prompts, clock: Clock)
    returns (briefCount: nat)
    requires substantive != [] && store.Valid()
    modifies store, backend
    ensures var spec := TopicStage(substantive, fetched, date, backend.respond, parsers, prompts, clock);
            Ok(briefCount) == spec.result && backend.calls == old(backend.calls) + spec.calls &&
            store.speeches == MarkAll(old(store.speeches), IdsOf(fetched)) &&
            store.briefs == old(store.briefs) + AsSeq(spec.brief)
    ensures store.Valid()
  {
    var scoutResult, topTopic := PickTopic(backend, substantive, parsers, prompts);
    ghost var scoutCall := Call(ScoutRole, prompts.scout(substantive));
    ghost var afterScout := backend.calls;
    assert afterScout == old(backend.calls) + [scoutCall];
    briefCount := 0;
    var processed := ProcessTopic(store, backend, topTopic, date, fetched, scoutResult, parsers, prompts, clock);
    ghost var run := TopicSpec(topTopic, date, fetched, scoutResult, backend.respond, parsers, prompts, clock);
    assert backend.calls == afterScout + run.calls;
    if processed == Ok(true) {
      briefCount := briefCount + 1;
    }
    assert briefCount == if Saved(run).Some? then 1 else 0;
    MarkFetched(store, fetched);
    AppendAssoc(old(backend.calls), [scoutCall], run.calls);
  }

  /**
   * `runPipeline` for the day [start, end]: `fetched` is the list the store
   * returned, in the order it returned it.
   */
  method RunPipeline(store: Store, backend: Backend, start: int, end: int, date: int, parsers: Parsers,
                     prompts: Prompts, clock: Clock)
    returns (r: Result<nat>, ghost fetched: seq<SpeechRow>)
    requires store.Valid()
    modifies store, backend
    ensures Listing(old(store.speeches), start, end, fetched)
    ensures var spec := PipelineSpec(fetched, date, backend.respond, parsers, prompts, clock);
            r == spec.result && backend.calls == old(backend.calls) + spec.calls &&
            store.speeches == (if spec.marks then MarkAll(old(store.speeches), IdsOf(fetched))
                               else old(store.speeches)) &&
            store.briefs == old(store.briefs) + AsSeq(spec.brief)
    ensures store.Valid()
  {
    var rawSpeeches := store.SpeechesBetween(start, end);
    fetched := rawSpeeches;
    if |rawSpeeches| == 0 {
      return Ok(0), fetched;
    }
    var inputs := Map(Batch(rawSpeeches), AsInput);
    var intakeReply := backend.CallAgent(IntakeRole, prompts.intake(inputs));
    if intakeReply.Threw? {
      return Threw, fetched;
    }
    var intake := Intake.Interpret(intakeReply.value, parsers.intake);
    var substantive := SubstantiveTopics(intake.topics);
    if |substantive| == 0 {
      return Ok(0), fetched;
    }
    var briefCount := AnalyseTopics(store, backend, substantive, rawSpeeches, date, parsers, prompts, clock);
    ghost var rest := TopicStage(substantive, rawSpeeches, date, backend.respond, parsers, prompts, clock);
    AppendAssoc(old(backend.calls), [Call(IntakeRole, prompts.intake(inputs))], rest.calls);
    return Ok(briefCount), fetched;
  }

  // -------------------------------------------------------------- properties

  /**
   * With the agents' own prompt builders, every stage sends its agent the
   * prompt that agent builds and reads the answer as the agent's `Run` does.
   */
  lemma IntakeAndScoutAsAgents(fetched: seq<SpeechRow>, substantive: seq<Topic>, respond: Responder,
                                parsers: Parsers, prompts: Prompts)
    requires prompts.intake == Intake.Prompt && prompts.scout == OpportunityScout.Prompt
    ensures IntakeAnswer(fetched, respond, parsers, prompts) ==
            Intake.Run(IntakeInputs(fetched), respond, parsers.intake)
    ensures ScoutOutcome(substantive, respond, parsers, prompts) ==
            match OpportunityScout.Run(substantive, respond, parsers.scout)
            case Threw => None
            case Ok(s) => Some(Ranked(s))
  {
  }

  lemma SteelmenAsAgents(job: Job, respond: Responder, redIn: seq<string>, blueIn: seq<string>)
    requires job.prompts.red == RedSteelman.Prompt && job.prompts.blue == BlueSteelman.Prompt
    ensures Answer(respond, RedRole, job.prompts.red(job.topic.name, redIn, blueIn)) ==
            RedSteelman.Run(job.topic.name, redIn, blueIn, respond)
    ensures Answer(respond, BlueRole, job.prompts.blue(job.topic.name, blueIn, redIn)) ==
            BlueSteelman.Run(job.topic.name, blueIn, redIn, respond)
  {
  }

  lemma BridgeAsAgent(job: Job, respond: Responder, red: string, blue: string)
    requires job.prompts.bridge == Bridge.Prompt
    ensures BridgeAnswer(job, red, blue, respond) == Bridge.Run(job.topic.name, red, blue, respond, job.parsers.bridge)
  {
  }

  lemma GuardAsAgent(job: Job, respond: Responder, red: string, blue: string, bridge: Bridge.BridgeResult)
    requires job.prompts.guard == DemocracyGuard.Prompt
    ensures GuardAnswer(job, red, blue, bridge, respond) ==
            DemocracyGuard.Run(job.topic.name, red, blue, bridge.summary, bridge.compromisePaths, respond,
                               job.parsers.guard)
  {
  }

  lemma DrafterAsAgent(job: Job, respond: Responder, red: string, blue: string, bridge: Bridge.BridgeResult,
                              guard: DemocracyGuard.DemocracyResult)
    requires job.prompts.drafter == PolicyDrafter.Prompt
    ensures Answer(respond, DrafterRole, DraftPrompt(job, red, blue, bridge, guard)) ==
            PolicyDrafter.Run(job.topic.name, red, blue, bridge.compromisePaths, guard.flags, respond)
  {
  }

  /** An empty day: no agent is called, nothing is marked and nothing is saved. */
  lemma EmptyDayDoesNothing(date: int, respond: Responder, parsers: Parsers, prompts: Prompts, clock: Clock)
    ensures PipelineSpec([], date, respond, parsers, prompts, clock) == PipelineRun([], Ok(0), false, None)
  {
  }

  /**
   * Intake sees at most 20 of the fetched speeches, longest first; each one
   * left out is no longer than each one kept; together they are the fetched
   * speeches; and speeches of equal length keep the order they were fetched in.
   */
  lemma BatchIsLongestFirst(fetched: seq<SpeechRow>)
    ensures |Batch(fetched)| == BatchSize(fetched) <= BatchLimit
    ensures |fetched| <= BatchLimit ==> |Batch(fetched)| == |fetched| && Dropped(fetched) == []
    ensures SortedDesc(Batch(fetched), TextLength)
    ensures multiset(Batch(fetched)) + multiset(Dropped(fetched)) == multiset(fetched)
    ensures forall i, j :: 0 <= i < |Batch(fetched)| && 0 <= j < |Dropped(fetched)| ==>
              TextLength(Dropped(fetched)[j]) <= TextLength(Batch(fetched)[i])
    ensures forall k :: WithKey(Batch(fetched), TextLength, k) <= WithKey(fetched, TextLength, k)
  {
    var sorted := SortDesc(fetched, TextLength);
    var n := BatchSize(fetched);
    SortDescSorted(fetched, TextLength);
    assert sorted == Batch(fetched) + Dropped(fetched);
    forall i, j | 0 <= i < j < |Batch(fetched)|
      ensures TextLength(Batch(fetched)[i]) >= TextLength(Batch(fetched)[j])
    {
      assert Batch(fetched)[i] == sorted[i] && Batch(fetched)[j] == sorted[j];
    }
    forall i, j | 0 <= i < |Batch(fetched)| && 0 <= j < |Dropped(fetched)|
      ensures TextLength(Dropped(fetched)[j]) <= TextLength(Batch(fetched)[i])
    {
      assert Batch(fetched)[i] == sorted[i] && Dropped(fetched)[j] == sorted[n + j];
    }
    forall k ensures WithKey(Batch(fetched), TextLength, k) <= WithKey(fetched, TextLength, k) {
      SortDescStable(fetched, TextLength, k);
      WithKeyConcat(Batch(fetched), Dropped(fetched), TextLength, k);
    }
  }

  /** Intake's backend call failing ends the run with that failure, before anything is marked. */
  lemma IntakeFailureStops(fetched: seq<SpeechRow>, date: int, respond: Responder, parsers: Parsers,
                           prompts: Prompts, clock: Clock)
    requires fetched != []
    requires respond(IntakeRole, prompts.intake(IntakeInputs(fetched))).Failure?
    ensures var spec := PipelineSpec(fetched, date, respond, parsers, prompts, clock);
            spec.result.Threw? && !spec.marks && spec.brief.None? &&
            spec.calls == [Call(IntakeRole, prompts.intake(IntakeInputs(fetched)))]
  {
  }

  /** No topic with a substantive speech: the run returns 0 after the intake call and marks nothing. */
  lemma NoSubstantiveTopicStops(fetched: seq<SpeechRow>, date: int, respond: Responder, parsers: Parsers,
                                prompts: Prompts, clock: Clock)
    requires fetched != []
    requires IntakeAnswer(fetched, respond, parsers, prompts).Ok?
    requires var topics := IntakeAnswer(fetched, respond, parsers, prompts).value.topics;
             forall i :: 0 <= i < |topics| ==> !HasSubstantive(topics[i])
    ensures var spec := PipelineSpec(fetched, date, respond, parsers, prompts, clock);
            spec.result == Ok(0) && !spec.marks && spec.brief.None? &&
            spec.calls == [Call(IntakeRole, prompts.intake(IntakeInputs(fetched)))]
  {
    FilterNone(IntakeAnswer(fetched, respond, parsers, prompts).value.topics, HasSubstantive);
  }

  /** Once a topic is chosen the fetched speeches are marked, and the result counts the one brief saved. */
  lemma ChosenTopicMarksAll(fetched: seq<SpeechRow>, date: int, respond: Responder, parsers: Parsers,
                            prompts: Prompts, clock: Clock)
    requires fetched != []
    requires IntakeAnswer(fetched, respond, parsers, prompts).Ok?
    requires var topics := IntakeAnswer(fetched, respond, parsers, prompts).value.topics;
             exists i :: 0 <= i < |topics| && HasSubstantive(topics[i])
    ensures var spec := PipelineSpec(fetched, date, respond, parsers, prompts, clock);
            spec.marks && (spec.result == Ok(0) || spec.result == Ok(1)) &&
            (spec.result == Ok(1) <==> spec.brief.Some?) &&
            |spec.calls| >= 2 && spec.calls[0] == Call(IntakeRole, prompts.intake(IntakeInputs(fetched))) &&
            spec.calls[1] == Call(ScoutRole, prompts.scout(SubstantiveTopics(
              IntakeAnswer(fetched, respond, parsers, prompts).value.topics)))
  {
    var topics := IntakeAnswer(fetched, respond, parsers, prompts).value.topics;
    var i :| 0 <= i < |topics| && HasSubstantive(topics[i]);
    assert topics[i] in SubstantiveTopics(topics);
    var rest := TopicStage(SubstantiveTopics(topics), fetched, date, respond, parsers, prompts, clock);
    TopicStageCounts(SubstantiveTopics(topics), fetched, date, respond, parsers, prompts, clock);
    PipelineSpecChosen(fetched, date, respond, parsers, prompts, clock);
    var spec := PipelineSpec(fetched, date, respond, parsers, prompts, clock);
    assert spec.calls[1] == rest.calls[0];
  }

  /** With substantive topics, the run is the intake call followed by the topic stage. */
  lemma PipelineSpecChosen(fetched: seq<SpeechRow>, date: int, respond: Responder, parsers: Parsers,
                           prompts: Prompts, clock: Clock)
    requires fetched != []
    requires IntakeAnswer(fetched, respond, parsers, prompts).Ok?
    requires SubstantiveTopics(IntakeAnswer(fetched, respond, parsers, prompts).value.topics) != []
    ensures var rest := TopicStage(SubstantiveTopics(IntakeAnswer(fetched, respond, parsers, prompts).value.topics),
                                   fetched, date, respond, parsers, prompts, clock);
            PipelineSpec(fetched, date, respond, parsers, prompts, clock) ==
            rest.(calls := [Call(IntakeRole, prompts.intake(IntakeInputs(fetched)))] + rest.calls)
  {
  }

  lemma TopicStageCounts(substantive: seq<Topic>, fetched: seq<SpeechRow>, date: int, respond: Responder,
                         parsers: Parsers, prompts: Prompts, clock: Clock)
    requires substantive != []
    ensures var rest := TopicStage(substantive, fetched, date, respond, parsers, prompts, clock);
            rest.marks && (rest.result == Ok(0) || rest.result == Ok(1)) &&
            (rest.result == Ok(1) <==> rest.brief.Some?) &&
            |rest.calls| >= 1 && rest.calls[0] == Call(ScoutRole, prompts.scout(substantive))
  {
  }

  /** After a marking run, exactly the speeches dated within the day are processed; no other column changes. */
  lemma DayFullyMarked(m: map<nat, SpeechRow>, start: int, end: int, fetched: seq<SpeechRow>)
    requires Listing(m, start, end, fetched)
    ensures var after := MarkAll(m, IdsOf(fetched));
            after.Keys == m.Keys &&
            forall id :: id in m ==>
              after[id] == m[id].(processed := after[id].processed) &&
              (after[id].processed <==> m[id].processed || start <= m[id].date <= end)
  {
    forall id | id in m
      ensures id in IdsOf(fetched) <==> start <= m[id].date <= end
    {
      if id in IdsOf(fetched) {
        var i :| 0 <= i < |fetched| && fetched[i].id == id;
      }
      if start <= m[id].date <= end {
        var i :| 0 <= i < |fetched| && fetched[i].id == id;
      }
    }
  }

  /** The analysed topic is always one of the substantive topics. */
  lemma SelectedTopicIsSubstantive(substantive: seq<Topic>, scout: Option<ScoutResult>)
    requires substantive != []
    ensures SelectTopic(substantive, scout) in substantive
  {
  }

  /**
   * The choice of topic: without a scout result, or when the scout ranked no
   * substantive topic, the first substantive topic; otherwise the first
   * substantive topic carrying the slug of the highest-scored ranked entry
   * that names a substantive topic, ties going to the entry the scout listed first.
   */
  lemma ScoutPicksBestListed(substantive: seq<Topic>, s: ScoutResult)
    requires substantive != []
    ensures SelectTopic(substantive, None) == substantive[0]
    ensures (forall i :: 0 <= i < |s.rankedTopics| ==> !SlugListed(substantive, s.rankedTopics[i].slug)) ==>
              SelectTopic(substantive, Some(Ranked(s))) == substantive[0]
    ensures (exists i :: 0 <= i < |s.rankedTopics| && SlugListed(substantive, s.rankedTopics[i].slug)) ==>
              var t := SelectTopic(substantive, Some(Ranked(s)));
              var rt := s.rankedTopics;
              (exists i :: 0 <= i < |rt| && rt[i].slug == t.slug &&
                 (forall j :: 0 <= j < |rt| && SlugListed(substantive, rt[j].slug) ==> rt[j].score <= rt[i].score) &&
                 (forall j :: 0 <= j < i && SlugListed(substantive, rt[j].slug) ==> rt[j].score < rt[i].score)) &&
              (exists k :: 0 <= k < |substantive| && substantive[k] == t &&
                 forall k' :: 0 <= k' < k ==> substantive[k'].slug != t.slug)
  {
    if exists i :: 0 <= i < |s.rankedTopics| && SlugListed(substantive, s.rankedTopics[i].slug) {
      ScoutPickListed(substantive, s);
    } else {
      ScoutPickUnlisted(substantive, s);
    }
  }

  lemma ScoutPickUnlisted(substantive: seq<Topic>, s: ScoutResult)
    requires substantive != []
    requires forall i :: 0 <= i < |s.rankedTopics| ==> !SlugListed(substantive, s.rankedTopics[i].slug)
    ensures SelectTopic(substantive, Some(Ranked(s))) == substantive[0]
  {
    var rt := s.rankedTopics;
    var ok := ListedIn(substantive);
    SelectedThroughBest(substantive, s);
    BestByScanIsBest(rt, ok, Score);
    assert forall i :: 0 <= i < |rt| ==> !ok(rt[i]);
  }

  lemma ScoutPickListed(substantive: seq<Topic>, s: ScoutResult)
    requires substantive != []
    requires exists i :: 0 <= i < |s.rankedTopics| && SlugListed(substantive, s.rankedTopics[i].slug)
    ensures var t := SelectTopic(substantive, Some(Ranked(s)));
            var rt := s.rankedTopics;
            (exists i :: 0 <= i < |rt| && rt[i].slug == t.slug &&
               (forall j :: 0 <= j < |rt| && SlugListed(substantive, rt[j].slug) ==> rt[j].score <= rt[i].score) &&
               (forall j :: 0 <= j < i && SlugListed(substantive, rt[j].slug) ==> rt[j].score < rt[i].score)) &&
            (exists k :: 0 <= k < |substantive| && substantive[k] == t &&
               forall k' :: 0 <= k' < k ==> substantive[k'].slug != t.slug)
  {
    var rt := s.rankedTopics;
    var i := BestListed(substantive, rt);
    SelectedThroughBest(substantive, s);
    BestPickIsFirstWithSlug(substantive, rt[i]);
  }

  /** The entry the scan picks: listed, highest-scored, and first among equals. */
  lemma BestListed(substantive: seq<Topic>, rt: seq<ScoutEntry>) returns (i: nat)
    requires exists i :: 0 <= i < |rt| && SlugListed(substantive, rt[i].slug)
    ensures i < |rt| && BestByScan(rt, ListedIn(substantive), Score) == Some(rt[i])
    ensures ListedIn(substantive)(rt[i])
    ensures forall j :: 0 <= j < |rt| && SlugListed(substantive, rt[j].slug) ==> rt[j].score <= rt[i].score
    ensures forall j :: 0 <= j < i && SlugListed(substantive, rt[j].slug) ==> rt[j].score < rt[i].score
  {
    var ok := ListedIn(substantive);
    var i0 :| 0 <= i0 < |rt| && SlugListed(substantive, rt[i0].slug);
    assert ok(rt[i0]);
    BestByScanIsBest(rt, ok, Score);
    BestByScanIsFirst(rt, ok, Score);
    i :| 0 <= i < |rt| && rt[i] == BestByScan(rt, ok, Score).value && ok(rt[i]) &&
         forall j :: 0 <= j < i && ok(rt[j]) ==> Score(rt[j]) < Score(rt[i]);
    forall j | 0 <= j < |rt| && SlugListed(substantive, rt[j].slug) ensures rt[j].score <= rt[i].score {
      assert ok(rt[j]);
    }
    forall j | 0 <= j < i && SlugListed(substantive, rt[j].slug) ensures rt[j].score < rt[i].score {
      assert ok(rt[j]);
    }
  }

  /** The topic choice through the scan for the best listed entry of the unsorted ranking. */
  lemma SelectedThroughBest(substantive: seq<Topic>, s: ScoutResult)
    requires substantive != []
    ensures var best := BestByScan(s.rankedTopics, ListedIn(substantive), Score);
            SelectTopic(substantive, Some(Ranked(s))) ==
              if best.None? then substantive[0]
              else TopicWithSlug(substantive, best.value.slug).GetOr(substantive[0])
  {
    FirstOfSortedIsBest(s.rankedTopics, ListedIn(substantive), Score);
  }

  lemma BestPickIsFirstWithSlug(substantive: seq<Topic>, b: ScoutEntry)
    requires substantive != [] && ListedIn(substantive)(b)
    ensures var t := TopicWithSlug(substantive, b.slug).GetOr(substantive[0]);
            t.slug == b.slug &&
            exists k :: 0 <= k < |substantive| && substantive[k] == t &&
              forall k' :: 0 <= k' < k ==> substantive[k'].slug != t.slug
  {
    var k0 :| 0 <= k0 < |substantive| && substantive[k0].slug == b.slug;
    assert TopicWithSlug(substantive, b.slug).Some?;
  }

  /** No speech of the topic tagged "R" or "D": no agent is called and no brief is saved. */
  lemma NoPartisanSpeechNoBrief(topic: Topic, date: int, fetched: seq<SpeechRow>, scout: Option<ScoutResult>,
                                respond: Responder, parsers: Parsers, prompts: Prompts, clock: Clock)
    requires forall i :: 0 <= i < |topic.speeches| ==>
               topic.speeches[i].party != "R" && topic.speeches[i].party != "D"
    ensures TopicSpec(topic, date, fetched, scout, respond, parsers, prompts, clock) == TopicRun([], Ok(None))
  {
    FilterNone(topic.speeches, (s: TopicSpeech) => s.party == "R");
    FilterNone(topic.speeches, (s: TopicSpeech) => s.party == "D");
  }

  /** Every steelman run starts with the red, then the blue request. */
  lemma SteelCallsFirst(job: Job, redIn: seq<string>, blueIn: seq<string>, conversation: seq<AgentMessage>,
                        respond: Responder)
    ensures SteelCalls(job, redIn, blueIn) <= SteelStage(job, redIn, blueIn, conversation, respond).calls
  {
  }

  /** With no Republican speech, both steelmen are shown the red placeholder sentence instead. */
  lemma RedPlaceholderWhenNoRepublican(topic: Topic, date: int, fetched: seq<SpeechRow>,
                                       scout: Option<ScoutResult>, respond: Responder, parsers: Parsers,
                                       prompts: Prompts, clock: Clock)
    requires Positions(topic, "R") == [] && Positions(topic, "D") != []
    ensures var blue := Positions(topic, "D");
            var calls := TopicSpec(topic, date, fetched, scout, respond, parsers, prompts, clock).calls;
            |calls| >= 2 &&
            calls[0] == Call(RedRole, prompts.red(topic.name, [RedPlaceholder], blue)) &&
            calls[1] == Call(BlueRole, prompts.blue(topic.name, blue, [RedPlaceholder]))
  {
    var job := Job(topic, date, fetched, ScoutInfo(scout, topic), parsers, prompts, clock);
    SteelCallsFirst(job, [RedPlaceholder], Positions(topic, "D"), Opening(topic, job.scoutInfo, clock), respond);
  }

  /** With no Democratic speech, both steelmen are shown the blue placeholder sentence instead. */
  lemma BluePlaceholderWhenNoDemocrat(topic: Topic, date: int, fetched: seq<SpeechRow>,
                                      scout: Option<ScoutResult>, respond: Responder, parsers: Parsers,
                                      prompts: Prompts, clock: Clock)
    requires Positions(topic, "D") == [] && Positions(topic, "R") != []
    ensures var red := Positions(topic, "R");
            var calls := TopicSpec(topic, date, fetched, scout, respond, parsers, prompts, clock).calls;
            |calls| >= 2 &&
            calls[0] == Call(RedRole, prompts.red(topic.name, red, [BluePlaceholder])) &&
            calls[1] == Call(BlueRole, prompts.blue(topic.name, [BluePlaceholder], red))
  {
    var job := Job(topic, date, fetched, ScoutInfo(scout, topic), parsers, prompts, clock);
    SteelCallsFirst(job, Positions(topic, "R"), [BluePlaceholder], Opening(topic, job.scoutInfo, clock), respond);
  }

  // ---------------------------------------------------------- the transcript

  function Roles(conversation: seq<AgentMessage>): seq<string>
  {
    Map(conversation, Role)
  }

  /** Each message carries the clock reading at its own position. */
  ghost predicate Stamped(conversation: seq<AgentMessage>, clock: Clock)
  {
    forall k :: 0 <= k < |conversation| ==> conversation[k].timestamp == clock(k)
  }

  lemma PushAppends(conversation: seq<AgentMessage>, agent: string, role: string, content: string, clock: Clock)
    ensures Roles(Push(conversation, agent, role, content, clock)) == Roles(conversation) + [role]
    ensures Stamped(conversation, clock) ==> Stamped(Push(conversation, agent, role, content, clock), clock)
  {
    var next := Push(conversation, agent, role, content, clock);
    assert forall k :: 0 <= k < |conversation| ==> next[k] == conversation[k];
    assert Roles(next) == Roles(conversation) + [role];
  }

  /** The saved brief: the drafter's message closes the transcript, and its verdict columns come from the agents. */
  lemma DraftStageSaves(job: Job, red: string, blue: string, bridge: Bridge.BridgeResult,
                        guard: DemocracyGuard.DemocracyResult, conversation: seq<AgentMessage>,
                        respond: Responder)
    ensures var run := DraftStage(job, red, blue, bridge, guard, conversation, respond);
            var drafted := Answer(respond, DrafterRole, DraftPrompt(job, red, blue, bridge, guard));
            (Saved(run).Some? <==> drafted.Ok?) &&
            (run.outcome.Threw? <==> drafted.Threw?) &&
            (Saved(run).Some? ==>
               var b := Saved(run).value;
               Roles(b.agentConversation) == Roles(conversation) + ["drafter"] &&
               (Stamped(conversation, job.clock) ==> Stamped(b.agentConversation, job.clock)) &&
               b.policyDraft == drafted.value &&
               b.redPosition == red && b.bluePosition == blue &&
               b.sharedValues == bridge.sharedValues && b.differences == bridge.genuineDifferences &&
               b.compromisePaths == bridge.compromisePaths &&
               b.democracyCheck == guard.summary && b.democracyFlagged == !guard.passed &&
               b.date == job.date && b.topic == job.topic.name && b.slug == job.topic.slug &&
               b.collaborationScore == CollaborationScore(job.scoutInfo) &&
               b.collaborationReason == CollaborationReason(job.scoutInfo) &&
               b.sourceSpeechMeta == SourceMeta(job.topic, job.fetched) &&
               b.sourceSpeechIds == SourceIds(job.topic, job.fetched))
  {
    var drafted := Answer(respond, DrafterRole, DraftPrompt(job, red, blue, bridge, guard));
    if drafted.Ok? {
      PushAppends(conversation, "Policy Drafter", "drafter", drafted.value, job.clock);
    }
  }

  lemma GuardStageSaves(job: Job, red: string, blue: string, bridge: Bridge.BridgeResult,
                        conversation: seq<AgentMessage>, respond: Responder)
    ensures var run := GuardStage(job, red, blue, bridge, conversation, respond);
            var checked := GuardAnswer(job, red, blue, bridge, respond);
            (checked.Threw? ==> run.outcome.Threw?) &&
            (Saved(run).Some? ==>
               var b := Saved(run).value;
               checked.Ok? &&
               Roles(b.agentConversation) == Roles(conversation) + ["guard", "drafter"] &&
               (Stamped(conversation, job.clock) ==> Stamped(b.agentConversation, job.clock)) &&
               b.democracyCheck == checked.value.summary && b.democracyFlagged == !checked.value.passed &&
               b.sharedValues == bridge.sharedValues && b.differences == bridge.genuineDifferences &&
               b.compromisePaths == bridge.compromisePaths && b.redPosition == red && b.bluePosition == blue &&
               b.topic == job.topic.name && b.slug == job.topic.slug &&
               b.collaborationScore == CollaborationScore(job.scoutInfo) &&
               b.sourceSpeechIds == SourceIds(job.topic, job.fetched))
  {
    var checked := GuardAnswer(job, red, blue, bridge, respond);
    if checked.Ok? {
      var next := Push(conversation, "Democracy Guard", "guard", checked.value.summary, job.clock);
      PushAppends(conversation, "Democracy Guard", "guard", checked.value.summary, job.clock);
      DraftStageSaves(job, red, blue, bridge, checked.value, next, respond);
    }
  }

  lemma BridgeStageSaves(job: Job, red: string, blue: string, conversation: seq<AgentMessage>,
                         respond: Responder)
    ensures var run := BridgeStage(job, red, blue, conversation, respond);
            var bridged := BridgeAnswer(job, red, blue, respond);
            (bridged.Threw? ==> run.outcome.Threw?) &&
            (Saved(run).Some? ==>
               var b := Saved(run).value;
               bridged.Ok? &&
               Roles(b.agentConversation) == Roles(conversation) + ["bridge", "guard", "drafter"] &&
               (Stamped(conversation, job.clock) ==> Stamped(b.agentConversation, job.clock)) &&
               b.sharedValues == bridged.value.sharedValues &&
               b.differences == bridged.value.genuineDifferences &&
               b.compromisePaths == bridged.value.compromisePaths &&
               b.redPosition == red && b.bluePosition == blue &&
               b.topic == job.topic.name && b.slug == job.topic.slug &&
               b.collaborationScore == CollaborationScore(job.scoutInfo) &&
               b.sourceSpeechIds == SourceIds(job.topic, job.fetched))
  {
    var bridged := BridgeAnswer(job, red, blue, respond);
    if bridged.Ok? {
      var next := Push(conversation, "Bridge Agent", "bridge", bridged.value.summary, job.clock);
      PushAppends(conversation, "Bridge Agent", "bridge", bridged.value.summary, job.clock);
      GuardStageSaves(job, red, blue, bridged.value, next, respond);
      assert ["bridge"] + ["guard", "drafter"] == ["bridge", "guard", "drafter"];
    }
  }

  lemma SteelStageSaves(job: Job, redIn: seq<string>, blueIn: seq<string>, conversation: seq<AgentMessage>,
                        respond: Responder)
    ensures var run := SteelStage(job, redIn, blueIn, conversation, respond);
            var red := Answer(respond, RedRole, job.prompts.red(job.topic.name, redIn, blueIn));
            var blue := Answer(respond, BlueRole, job.prompts.blue(job.topic.name, blueIn, redIn));
            (red.Threw? || blue.Threw? ==> run.outcome.Threw?) &&
            (Saved(run).Some? ==>
               var b := Saved(run).value;
               red.Ok? && blue.Ok? &&
               Roles(b.agentConversation) == Roles(conversation) + ["red", "blue", "bridge", "guard", "drafter"] &&
               (Stamped(conversation, job.clock) ==> Stamped(b.agentConversation, job.clock)) &&
               b.redPosition == red.value && b.bluePosition == blue.value &&
               b.topic == job.topic.name && b.slug == job.topic.slug &&
               b.collaborationScore == CollaborationScore(job.scoutInfo) &&
               b.sourceSpeechIds == SourceIds(job.topic, job.fetched))
  {
    var red := Answer(respond, RedRole, job.prompts.red(job.topic.name, redIn, blueIn));
    var blue := Answer(respond, BlueRole, job.prompts.blue(job.topic.name, blueIn, redIn));
    if red.Ok? && blue.Ok? {
      var once := Push(conversation, "Red Agent", "red", red.value, job.clock);
      var next := Push(once, "Blue Agent", "blue", blue.value, job.clock);
      PushAppends(conversation, "Red Agent", "red", red.value, job.clock);
      PushAppends(once, "Blue Agent", "blue", blue.value, job.clock);
      BridgeStageSaves(job, red.value, blue.value, next, respond);
      assert Roles(conversation) + ["red"] + ["blue"] + ["bridge", "guard", "drafter"] ==
             Roles(conversation) + ["red", "blue", "bridge", "guard", "drafter"];
    }
  }

  /** The opening transcript: the intake note, then the scout note exactly when the scout ranked the topic. */
  lemma OpeningShape(topic: Topic, scoutInfo: Option<ScoutEntry>, clock: Clock)
    ensures Roles(Opening(topic, scoutInfo, clock)) == ["intake"] + (if scoutInfo.Some? then ["scout"] else [])
    ensures Stamped(Opening(topic, scoutInfo, clock), clock)
  {
    var intake := Push([], "Intake Agent", "intake",
                       IntakeNote(topic.name, |Positions(topic, "R")|, |Positions(topic, "D")|), clock);
    PushAppends([], "Intake Agent", "intake",
                IntakeNote(topic.name, |Positions(topic, "R")|, |Positions(topic, "D")|), clock);
    if scoutInfo.Some? {
      PushAppends(intake, "Opportunity Scout", "scout", ScoutNote(scoutInfo.value), clock);
    }
  }

  /**
   * A saved brief's transcript holds, in order, the intake note, the scout
   * note when the scout ranked the topic, and the red, blue, bridge, guard and
   * drafter messages, each stamped at its position; the brief cites the topic
   * and carries a collaboration score exactly when the scout ranked it.
   */
  lemma SavedBriefTranscript(topic: Topic, date: int, fetched: seq<SpeechRow>, scout: Option<ScoutResult>,
                             respond: Responder, parsers: Parsers, prompts: Prompts, clock: Clock)
    requires Saved(TopicSpec(topic, date, fetched, scout, respond, parsers, prompts, clock)).Some?
    ensures var b := Saved(TopicSpec(topic, date, fetched, scout, respond, parsers, prompts, clock)).value;
            var scoutInfo := ScoutInfo(scout, topic);
            Roles(b.agentConversation) ==
              ["intake"] + (if scoutInfo.Some? then ["scout"] else []) + ["red", "blue", "bridge", "guard", "drafter"] &&
            Stamped(b.agentConversation, clock) &&
            b.topic == topic.name && b.slug == topic.slug &&
            (b.collaborationScore.Some? <==> scoutInfo.Some?) &&
            b.sourceSpeechIds == SourceIds(topic, fetched)
  {
    var job := Job(topic, date, fetched, ScoutInfo(scout, topic), parsers, prompts, clock);
    var redIn := OrPlaceholder(Positions(topic, "R"), RedPlaceholder);
    var blueIn := OrPlaceholder(Positions(topic, "D"), BluePlaceholder);
    OpeningShape(topic, job.scoutInfo, clock);
    SteelStageSaves(job, redIn, blueIn, Opening(topic, job.scoutInfo, clock), respond);
  }
}
