/** The chat assistant's transcript bookkeeping (app/service.py, lines
    132-220).

    An `AIService` owns one list of messages, seeded with the staffing
    persona. `Chat` and `Summarize` grow that list in place and hand the
    transcript to the hosted model. The model's answer is not computed here:
    it is the `completion` parameter, either the reply text or the exception
    the client library raised. Likewise `str(chat_history)` is the
    `serialize` parameter.
 */
module AIChat {
  import opened Errors

  /** The four message kinds the chat client accepts. */
  datatype Role = SystemRole | UserRole | AssistantRole | ToolRole

  datatype Message = Message(role: Role, content: string)

  datatype ChatResponse = ChatResponse(response: string, chatHistory: seq<Message>)

  datatype SummarizeResponse = SummarizeResponse(response: string)

  /** The persona every transcript starts with. */
  const ChatSystemPrompt: string := @"
            You are a chat bot assistant designed to help with the staffing processes at EY. Two types of users will be communicating with you: 1) people
            with technical skills that looking for engagements, and 2) people who are trying to staff engagements with the resources who have the correct
            skills. Your job is to understand what the engagement requirements are and try to match staff with engagments they can contribute to.

            Your goal is to gather enough information from the user to be able to create a text summary that will outline all necessary details of the
            engagement. Keep asking questions until you are confident you are able to do this. When you have enough information, ask the user if they would
            like to create an opportunity based on this information, and if the answer is yes, we will call another endpoint to summarize the info.

            When someone asks you for an engagement, collect the following information:
            1. Rank
            2. Applicable skills
            3. Availability timeline
        "

  /** The instructions `summarize` adds before the serialised history. */
  const SummarizeInstructions: string := @"
                The following message from the user will contain a series of messages from a prior conversation describing a potential engagement 
                opportunity. It is your job to summarize these messages into a format that will be stored as an opportunity. You will include the
                following sections in the opportunity as you understand them from the conversation.

                1. Engagement Name - Name the opportunity based on the goal of the engagement and the client
                2. Engagement Summary - Explain in a few sentences on what the engagement is about and what will get done during it
                3. Required Resources - List out all of the roles needed for the engagement and what skills are required for each role as well as
                rank requirements. Also include a few sentence summary for each role about what they will be doing.
                4. Estimated Start Date and Timeline

                Return this result as a string that can be saved into a database to later be indexed or retrieved.
            "

  const UnsupportedModel: string := "AI model is not currently supported or does not exist"

  /** The one model name the service accepts, compared in lower case. */
  const SupportedModelName: string := "mistral"

  /** Lower-casing of one character (ASCII letters only). */
  function LowerChar(c: char): char {
    if 'A' <= c <= 'Z' then (c as int - 'A' as int + 'a' as int) as char else c
  }

  /** `s.lower()`: the same length, each character lower-cased. */
  function Lower(s: string): (r: string)
    ensures |r| == |s|
    ensures forall i :: 0 <= i < |s| ==> r[i] == LowerChar(s[i])
  {
    if |s| == 0 then [] else [LowerChar(s[0])] + Lower(s[1..])
  }

  predicate IsSupported(model: string) {
    Lower(model) == SupportedModelName
  }

  class AIService {
    var messages: seq<Message>

    /** The transcript still begins with the persona. */
    ghost predicate Seeded()
      reads this
    {
      |messages| >= 1 && messages[0] == Message(SystemRole, ChatSystemPrompt)
    }

    /** `AIService.__init__`: a transcript holding only the persona. */
    constructor ()
      ensures messages == [Message(SystemRole, ChatSystemPrompt)]
      ensures Seeded()
    {
      messages := [Message(SystemRole, ChatSystemPrompt)];
    }

    /** `AIService.chat`. For the supported model the transcript is extended
        with the caller's history and the prompt, then, once the model has
        answered, with the reply (tagged as a system message); the reply is
        returned together with everything after the first message. Any other
        model name raises before anything changes. */
    method Chat(model: string, prompt: string, chatHistory: seq<Message>, completion: Result<string>)
      returns (r: Result<ChatResponse>)
      modifies this
      ensures !IsSupported(model) ==>
                r == Err(Exception(UnsupportedModel)) && messages == old(messages)
      ensures IsSupported(model) && completion.Err? ==>
                r == Err(completion.error)
                && messages == old(messages) + chatHistory + [Message(UserRole, prompt)]
      ensures IsSupported(model) && completion.Ok? ==>
                && messages == old(messages) + chatHistory
                               + [Message(UserRole, prompt), Message(SystemRole, completion.value)]
                && r == Ok(ChatResponse(completion.value, messages[1..]))
      ensures old(Seeded()) ==> Seeded()
    {
      if Lower(model) == SupportedModelName {
        // `messages = self.messages` aliases the field: every change below is
        // a change to it.
        messages := messages + chatHistory;
        messages := messages + [Message(UserRole, prompt)];
        match completion {
          case Err(e) =>
            r := Err(e);
          case Ok(reply) =>
            messages := messages + [Message(SystemRole, reply)];
            r := Ok(ChatResponse(reply, messages[1..]));
        }
      } else {
        r := Err(Exception(UnsupportedModel));
      }
    }

    /** `AIService.summarize`. For the supported model the transcript is
        extended with the summarising instructions and one user message
        holding the serialised history, then, once the model has answered,
        with the reply (tagged as a system message), which is returned. Any
        other model name raises before anything changes. */
    method Summarize(model: string, chatHistory: seq<Message>, completion: Result<string>,
                     serialize: seq<Message> -> string)
      returns (r: Result<SummarizeResponse>)
      modifies this
      ensures !IsSupported(model) ==>
                r == Err(Exception(UnsupportedModel)) && messages == old(messages)
      ensures IsSupported(model) && completion.Err? ==>
                r == Err(completion.error)
                && messages == old(messages) + [Message(SystemRole, SummarizeInstructions),
                                                Message(UserRole, serialize(chatHistory))]
      ensures IsSupported(model) && completion.Ok? ==>
                r == Ok(SummarizeResponse(completion.value))
                && messages == old(messages) + [Message(SystemRole, SummarizeInstructions),
                                                Message(UserRole, serialize(chatHistory)),
                                                Message(SystemRole, completion.value)]
      ensures old(Seeded()) ==> Seeded()
    {
      if Lower(model) == SupportedModelName {
        messages := messages + [Message(SystemRole, SummarizeInstructions)];
        messages := messages + [Message(UserRole, serialize(chatHistory))];
        match completion {
          case Err(e) =>
            r := Err(e);
          case Ok(reply) =>
            messages := messages + [Message(SystemRole, reply)];
            r := Ok(SummarizeResponse(reply));
        }
      } else {
        r := Err(Exception(UnsupportedModel));
      }
    }
  }

  /** The chat route: a fresh service per request, asked for the supported
      model. What the caller sees is its own history followed by its prompt
      and the reply; the persona is never echoed. */
  method ChatRoute(prompt: string, chatHistory: seq<Message>, completion: Result<string>)
    returns (r: Result<ChatResponse>)
    ensures completion.Err? ==> r == Err(completion.error)
    ensures completion.Ok? ==>
              r == Ok(ChatResponse(completion.value,
                                   chatHistory + [Message(UserRole, prompt), Message(SystemRole, completion.value)]))
  {
    var aiService := new AIService();
    ghost var seed := aiService.messages;
    SupportedModelNameAccepted();
    r := aiService.Chat(SupportedModelName, prompt, chatHistory, completion);
    if completion.Ok? {
      var echoed := chatHistory + [Message(UserRole, prompt), Message(SystemRole, completion.value)];
      assert aiService.messages == seed + echoed;
      assert aiService.messages[1..] == echoed;
    }
  }

  // ---------------------------------------------------------------------
  // Lemmas

  /** The gate accepts a name exactly when it spells "mistral" in any mix of
      letter cases. */
  lemma SupportedModelNames(model: string)
    ensures IsSupported(model) <==>
              |model| == |SupportedModelName|
              && forall i :: 0 <= i < |model| ==> LowerChar(model[i]) == SupportedModelName[i]
  {
  }

  lemma SupportedModelNameAccepted()
    ensures IsSupported(SupportedModelName)
  {
  }

  /** Case does not matter to the gate, but nothing else is accepted: not
      even the name the service actually sends to the provider. */
  lemma SupportedModelExamples()
    ensures IsSupported("mistral") && IsSupported("Mistral") && IsSupported("MISTRAL")
    ensures !IsSupported("mistral-large-latest") && !IsSupported("gpt-4")
  {
  }
}
