/** The Blue (progressive) steelman agent: prose in, prose out. */
module BlueSteelman {
  import opened Wrappers
  import opened Text
  import opened Claude

  const OwnHeader := "PROGRESSIVE SPEECHES ON THIS TOPIC:\n"
  const ContextHeader := "CONSERVATIVE SPEECHES ON THIS TOPIC (for context — understand what you're responding to):\n"
  const Closing := "Present the strongest possible progressive position on this topic, drawing from the speeches above but improving on the arguments made. Strip the rhetoric, find the real substance."

  /** Note the argument order: the agent's own side comes first. */
  function Prompt(topic: string, progressive: seq<string>, conservative: seq<string>): string
  {
    "TOPIC: " + topic + "\n\n" + OwnHeader + SpeechList(progressive) + "\n\n" +
    ContextHeader + SpeechList(conservative) + "\n\n" + Closing
  }

  /** `runBlueSteelman`: the backend's text, unparsed. */
  function Run(topic: string, progressive: seq<string>, conservative: seq<string>,
               respond: Responder): (r: Result<string>)
    ensures r.Threw? <==> respond(BlueRole, Prompt(topic, progressive, conservative)).Failure?
    ensures respond(BlueRole, Prompt(topic, progressive, conservative)).Content? ==>
              r == Ok(FirstText(respond(BlueRole, Prompt(topic, progressive, conservative)).blocks))
  {
    Answer(respond, BlueRole, Prompt(topic, progressive, conservative))
  }

  /**
   * The prompt opens with the topic; the progressive header and its numbered
   * speeches come before the conservative context header and its speeches.
   */
  lemma PromptLayout(topic: string, progressive: seq<string>, conservative: seq<string>)
    ensures var p := Prompt(topic, progressive, conservative);
            StartsWith(p, "TOPIC: " + topic + "\n\n") &&
            exists i: nat, j: nat ::
              OccursAt(p, OwnHeader, i) && OccursAt(p, SpeechList(progressive), i + |OwnHeader|) &&
              OccursAt(p, ContextHeader, j) && OccursAt(p, SpeechList(conservative), j + |ContextHeader|) &&
              i + |OwnHeader| + |SpeechList(progressive)| <= j
  {
    TwoSectionsInOrder("TOPIC: " + topic + "\n\n", OwnHeader, SpeechList(progressive), "\n\n",
                       ContextHeader, SpeechList(conservative), "\n\n", Closing);
  }

  /**
   * An empty side renders as an empty section: its header is followed directly
   * by the blank line, and this agent adds no placeholder of its own.
   */
  lemma EmptySideRendersEmpty(topic: string, progressive: seq<string>, conservative: seq<string>)
    ensures Prompt(topic, [], conservative) ==
            "TOPIC: " + topic + "\n\n" + OwnHeader + "\n\n" + ContextHeader + SpeechList(conservative) + "\n\n" + Closing
    ensures Prompt(topic, progressive, []) ==
            "TOPIC: " + topic + "\n\n" + OwnHeader + SpeechList(progressive) + "\n\n" + ContextHeader + "\n\n" + Closing
  {
    assert Numbered([], "[", "] ") == [];
    assert SpeechList([]) == "";
  }
}
