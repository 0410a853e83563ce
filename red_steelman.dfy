/** The Red (conservative) steelman agent: prose in, prose out. */
module RedSteelman {
  import opened Wrappers
  import opened Text
  import opened Claude

  const OwnHeader := "CONSERVATIVE SPEECHES ON THIS TOPIC:\n"
  const ContextHeader := "PROGRESSIVE SPEECHES ON THIS TOPIC (for context — understand what you're responding to):\n"
  const Closing := "Present the strongest possible conservative position on this topic, drawing from the speeches above but improving on the arguments made. Strip the rhetoric, find the real substance."

  function Prompt(topic: string, conservative: seq<string>, progressive: seq<string>): string
  {
    "TOPIC: " + topic + "\n\n" + OwnHeader + SpeechList(conservative) + "\n\n" +
    ContextHeader + SpeechList(progressive) + "\n\n" + Closing
  }

  /** `runRedSteelman`: the backend's text, unparsed. */
  function Run(topic: string, conservative: seq<string>, progressive: seq<string>,
               respond: Responder): (r: Result<string>)
    ensures r.Threw? <==> respond(RedRole, Prompt(topic, conservative, progressive)).Failure?
    ensures respond(RedRole, Prompt(topic, conservative, progressive)).Content? ==>
              r == Ok(FirstText(respond(RedRole, Prompt(topic, conservative, progressive)).blocks))
  {
    Answer(respond, RedRole, Prompt(topic, conservative, progressive))
  }

  /**
   * The prompt opens with the topic; the conservative header and its numbered
   * speeches come before the progressive context header and its speeches.
   */
  lemma PromptLayout(topic: string, conservative: seq<string>, progressive: seq<string>)
    ensures var p := Prompt(topic, conservative, progressive);
            StartsWith(p, "TOPIC: " + topic + "\n\n") &&
            exists i: nat, j: nat ::
              OccursAt(p, OwnHeader, i) && OccursAt(p, SpeechList(conservative), i + |OwnHeader|) &&
              OccursAt(p, ContextHeader, j) && OccursAt(p, SpeechList(progressive), j + |ContextHeader|) &&
              i + |OwnHeader| + |SpeechList(conservative)| <= j
  {
    TwoSectionsInOrder("TOPIC: " + topic + "\n\n", OwnHeader, SpeechList(conservative), "\n\n",
                       ContextHeader, SpeechList(progressive), "\n\n", Closing);
  }

  /**
   * An empty side renders as an empty section: its header is followed directly
   * by the blank line, and this agent adds no placeholder of its own.
   */
  lemma EmptySideRendersEmpty(topic: string, conservative: seq<string>, progressive: seq<string>)
    ensures Prompt(topic, [], progressive) ==
            "TOPIC: " + topic + "\n\n" + OwnHeader + "\n\n" + ContextHeader + SpeechList(progressive) + "\n\n" + Closing
    ensures Prompt(topic, conservative, []) ==
            "TOPIC: " + topic + "\n\n" + OwnHeader + SpeechList(conservative) + "\n\n" + ContextHeader + "\n\n" + Closing
  {
    assert Numbered([], "[", "] ") == [];
    assert SpeechList([]) == "";
  }
}
