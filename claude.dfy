/**
 * The generation backend (`callAgent`). The backend itself is foreign: it is an
 * oracle from (role, user message) to a response, and every call made to it is
 * logged so that the model can state which calls an operation makes.
 */
module Claude {
  import opened Wrappers

  /** The agent a call is made for; it stands for that agent's fixed system prompt. */
  datatype Role = IntakeRole | ScoutRole | RedRole | BlueRole | BridgeRole | GuardRole | DrafterRole | MatcherRole

  /**
   * The output-size cap each agent passes as `maxTokens`. This table and the
   * next only record the request settings; no contract reads them.
   */
  function MaxTokens(role: Role): nat
  {
    match role
    case IntakeRole => 8192
    case ScoutRole => 4096
    case RedRole => 2048
    case BlueRole => 2048
    case BridgeRole => 4096
    case GuardRole => 4096
    case DrafterRole => 2048
    case MatcherRole => 4096
  }

  /** The sampling temperature each agent passes, in tenths. */
  function TemperatureTenths(role: Role): nat
  {
    match role
    case IntakeRole => 3
    case ScoutRole => 4
    case RedRole => 6
    case BlueRole => 6
    case BridgeRole => 5
    case GuardRole => 3
    case DrafterRole => 6
    case MatcherRole => 2
  }

  datatype Block = TextBlock(text: string) | OtherBlock

  /** One answer of the backend: its content blocks, or a failed request. */
  datatype Response = Content(blocks: seq<Block>) | Failure

  type Responder = (Role, string) -> Response

  datatype Call = Call(role: Role, prompt: string)

  /** The text of the first text block, or "" when the response has none. */
  function FirstText(blocks: seq<Block>): (r: string)
    ensures (forall i :: 0 <= i < |blocks| ==> !blocks[i].TextBlock?) ==> r == ""
    ensures forall i :: (0 <= i < |blocks| && blocks[i].TextBlock? &&
                         forall j :: 0 <= j < i ==> !blocks[j].TextBlock?) ==> r == blocks[i].text
  {
    if blocks == [] then ""
    else if blocks[0].TextBlock? then blocks[0].text
    else
      var r := FirstText(blocks[1..]);
      assert forall i :: 1 <= i < |blocks| ==> blocks[i] == blocks[1..][i - 1];
      r
  }

  /** What `callAgent` resolves to: the first text, or a thrown error when the request fails. */
  function Answer(respond: Responder, role: Role, prompt: string): Result<string>
  {
    match respond(role, prompt)
    case Failure => Threw
    case Content(blocks) => Ok(FirstText(blocks))
  }

  lemma AnswerFailsOnlyOnFailure(respond: Responder, role: Role, prompt: string)
    ensures Answer(respond, role, prompt).Threw? <==> respond(role, prompt).Failure?
    ensures respond(role, prompt) == Content([]) ==> Answer(respond, role, prompt) == Ok("")
  {
  }

  class Backend {
    const respond: Responder
    /** Every request made so far, in order. */
    var calls: seq<Call>

    constructor (respond: Responder)
      ensures this.respond == respond && calls == []
    {
      this.respond := respond;
      calls := [];
    }

    method CallAgent(role: Role, prompt: string) returns (r: Result<string>)
      modifies this
      ensures calls == old(calls) + [Call(role, prompt)]
      ensures r == Answer(respond, role, prompt)
    {
      calls := calls + [Call(role, prompt)];
      var response := respond(role, prompt);
      match response {
        case Failure => r := Threw;
        case Content(blocks) => r := Ok(FirstText(blocks));
      }
    }
  }
}
