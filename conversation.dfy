/** The chat history's messages and the two pure renderings of it: the
    transcript fed to the model (ai_friend.py:81-83) with the prompt built from
    it (ai_friend.py:61-71, 85), and the chat-bubble role (ai_friend.py:77). */
module Conversation {

  import opened Text

  /** The two message kinds the history holds, `HumanMessage` and `AIMessage`. */
  datatype MessageType = Human | Ai

  datatype Message = Message(kind: MessageType, content: string)

  /** The message's `type` attribute. */
  function TypeTag(t: MessageType): string
  {
    match t
    case Human => "human"
    case Ai => "ai"
  }

  /** The transcript label, `msg.type.capitalize()`. */
  function Label(t: MessageType): string
  {
    Capitalize(TypeTag(t))
  }

  /** The labels are "Human" and "Ai" (not "User"/"Assistant"), and they differ. */
  lemma Labels()
    ensures Label(Human) == "Human" && Label(Ai) == "Ai"
    ensures Label(Human) != Label(Ai)
  {
    CapitalizeLowerWord(TypeTag(Human));
    CapitalizeLowerWord(TypeTag(Ai));
  }

  /** One transcript line, `f"{msg.type.capitalize()}: {msg.content}"`. */
  function Line(m: Message): string
  {
    Label(m.kind) + ": " + m.content
  }

  function Lines(history: seq<Message>): (ls: seq<string>)
    ensures |ls| == |history|
  {
    seq(|history|, k requires 0 <= k < |history| => Line(history[k]))
  }

  /** `"\n".join(lines)` over the whole history. */
  function Transcript(history: seq<Message>): string
  {
    Join(Lines(history), "\n")
  }

  /** An empty history gives an empty transcript; one more message adds one
      line after a newline. */
  lemma TranscriptGrows(history: seq<Message>, m: Message)
    ensures Transcript([]) == ""
    ensures Transcript(history + [m]) ==
            if history == [] then Line(m) else Transcript(history) + "\n" + Line(m)
  {
    assert Lines(history + [m]) == Lines(history) + [Line(m)];
    if history != [] {
      JoinSnoc(Lines(history), Line(m), "\n");
    }
  }

  /** When no message contains a newline, the transcript splits back into
      exactly one `"<Label>: <content>"` line per message, in history order. */
  lemma TranscriptLines(history: seq<Message>)
    requires history != []
    requires forall k :: 0 <= k < |history| ==> '\n' !in history[k].content
    ensures Split(Transcript(history), '\n') == Lines(history)
    ensures forall k :: 0 <= k < |history| ==>
              Split(Transcript(history), '\n')[k] == Label(history[k].kind) + ": " + history[k].content
  {
    Labels();
    forall k | 0 <= k < |history|
      ensures '\n' !in Lines(history)[k]
    {
      var l := Lines(history)[k];
      var n := |Label(history[k].kind) + ": "|;
      assert l == Label(history[k].kind) + ": " + history[k].content;
      assert forall i :: 0 <= i < n ==> l[i] != '\n';
      assert forall i :: n <= i < |l| ==> l[i] == history[k].content[i - n];
    }
    SplitJoin(Lines(history), '\n');
  }

  /** The fixed text before the transcript; the template opens with a newline. */
  const Persona: string :=
    "\nYou are a supportive and friendly AI companion who helps emotionally and practically.\n\n"
  const HistoryHeader: string := "Previous conversation:\n"
  const QuestionHeader: string := "\n\nUser: "
  const AnswerCue: string := "\nAI:"

  /** `prompt.format(chat_history=transcript, question=question)`: both values
      are substituted verbatim. */
  function BuildPrompt(transcript: string, question: string): string
  {
    Persona + HistoryHeader + transcript + QuestionHeader + question + AnswerCue
  }

  /** The prompt opens with the persona and `"Previous conversation:\n" + transcript`,
      and ends with `"\n\nUser: " + question + "\nAI:"`. */
  lemma PromptLayout(transcript: string, question: string)
    ensures var p, h := BuildPrompt(transcript, question), |Persona + HistoryHeader|;
            |p| == h + |transcript| + |QuestionHeader + question + AnswerCue| &&
            p[..|Persona|] == Persona &&
            p[|Persona|..h + |transcript|] == HistoryHeader + transcript &&
            p[h + |transcript|..] == QuestionHeader + question + AnswerCue
  {
    var p := BuildPrompt(transcript, question);
    var h := |Persona + HistoryHeader|;
    assert p == (Persona + HistoryHeader + transcript) + (QuestionHeader + question + AnswerCue);
    assert p[..h + |transcript|] == Persona + (HistoryHeader + transcript);
  }

  /** For a given transcript, different questions give different prompts. */
  lemma PromptDeterminesQuestion(transcript: string, q1: string, q2: string)
    requires BuildPrompt(transcript, q1) == BuildPrompt(transcript, q2)
    ensures q1 == q2
  {
    PromptLayout(transcript, q1);
    PromptLayout(transcript, q2);
    var p := BuildPrompt(transcript, q1);
    var start := |Persona + HistoryHeader| + |transcript| + |QuestionHeader|;
    assert q1 == p[start..|p| - |AnswerCue|];
  }

  /** The chat-bubble role: `"user" if msg.type == "human" else "assistant"`. */
  function DisplayRole(m: Message): (role: string)
    ensures role == "user" <==> m.kind == Human
    ensures role == "assistant" <==> m.kind == Ai
  {
    if TypeTag(m.kind) == "human" then "user" else "assistant"
  }
}
