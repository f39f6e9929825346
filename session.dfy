/** One chat turn (ai_friend.py:80-91) over the session's mutable
    `chat_history`. The language model is a parameter: a function from the
    prompt to either a reply or a failure (the exception `llm.invoke` raises). */
module Companion {

  import opened Conversation

  datatype LlmReply = Reply(text: string) | Unavailable

  /** What a turn did: no question was entered, the model answered, or the
      model call raised and the turn stopped there. */
  datatype TurnOutcome = NoQuestion | Answered(response: string) | InvocationFailed

  /** `st.session_state.chat_history`, created empty on the first run of a session. */
  class CompanionSession {
    var history: seq<Message>

    constructor ()
      ensures history == []
    {
      history := [];
    }

    /** The `if question:` block: build the prompt from the current history,
        invoke the model, and only then append the question and the reply. */
    method Turn(question: string, invoke: string -> LlmReply) returns (o: TurnOutcome)
      modifies this
      ensures question == [] ==> o == NoQuestion && history == old(history)
      ensures question != [] ==>
                var reply := invoke(BuildPrompt(Transcript(old(history)), question));
                match reply
                case Unavailable => o == InvocationFailed && history == old(history)
                case Reply(text) =>
                  o == Answered(text) &&
                  history == old(history) + [Message(Human, question), Message(Ai, text)]
    {
      if question == [] {
        return NoQuestion;
      }
      var transcript := Transcript(history);
      var reply := invoke(BuildPrompt(transcript, question));
      if reply.Unavailable? {
        return InvocationFailed;
      }
      history := history + [Message(Human, question)];
      history := history + [Message(Ai, reply.text)];
      o := Answered(reply.text);
    }
  }

  /** The transcript lines of the two messages a turn appends. */
  lemma TurnLines(question: string, response: string)
    ensures Line(Message(Human, question)) == "Human: " + question
    ensures Line(Message(Ai, response)) == "Ai: " + response
  {
    Labels();
  }

  /** After an answered turn the next prompt's transcript is the old one
      followed by `"Human: <question>"` and `"Ai: <response>"` lines. */
  lemma TranscriptAfterTurn(history: seq<Message>, question: string, response: string)
    ensures history == [] ==>
              Transcript([Message(Human, question), Message(Ai, response)]) ==
              "Human: " + question + "\n" + "Ai: " + response
    ensures history != [] ==>
              Transcript(history + [Message(Human, question), Message(Ai, response)]) ==
              Transcript(history) + "\n" + "Human: " + question + "\n" + "Ai: " + response
  {
    var hq, ar := Message(Human, question), Message(Ai, response);
    TurnLines(question, response);
    var mid := history + [hq];
    assert history + [hq, ar] == mid + [ar];
    TranscriptGrows(history, hq);
    TranscriptGrows(mid, ar);
    if history == [] {
      assert history + [hq, ar] == [hq, ar];
    }
  }

  /** The two messages a turn appends render as a "user" bubble followed by an
      "assistant" bubble. */
  lemma TurnBubbles(history: seq<Message>, question: string, response: string)
    ensures var after := history + [Message(Human, question), Message(Ai, response)];
            DisplayRole(after[|history|]) == "user" && DisplayRole(after[|history| + 1]) == "assistant"
  {
  }
}
