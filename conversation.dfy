/** Messages, the requests sent to the language model, and the shape of
    the stored transcript. */
module Conversation {

  datatype Role = System | User | Assistant

  /** A `{role, content}` entry, as stored in the session's message list
      and as sent to the completion service. */
  datatype Message = Message(role: Role, content: string)

  /** The synthetic user turn that elicits the opening line. */
  const Seed: string := "Start the conversation"

  /** The request for the opening greeting: the topic's system prompt
      followed by the seed turn. */
  function GreetingRequest(systemPrompt: string): (r: seq<Message>)
  {
    [Message(System, systemPrompt), Message(User, Seed)]
  }

  /** The request for a chat turn: a system message, then every stored
      message projected onto its role and content, in order. */
  function BuildRequest(systemPrompt: string, history: seq<Message>): (r: seq<Message>)
    ensures |r| == |history| + 1
    ensures r[0] == Message(System, systemPrompt)
    ensures forall i :: 0 <= i < |history| ==> r[i + 1] == Message(history[i].role, history[i].content)
    ensures r == [Message(System, systemPrompt)] + history
  {
    [Message(System, systemPrompt)]
      + seq(|history|, i requires 0 <= i < |history| => Message(history[i].role, history[i].content))
  }

  /** Appending a message to the history appends it to the request: the
      full history is resent each turn, never truncated or reordered. */
  lemma BuildRequestAppend(systemPrompt: string, history: seq<Message>, m: Message)
    ensures BuildRequest(systemPrompt, history + [m]) == BuildRequest(systemPrompt, history) + [m]
  {
  }

  /** The shape every stored transcript keeps: only user and assistant
      messages; the first is the assistant's opening line; every later
      assistant message directly follows a user message. */
  ghost predicate WellFormed(m: seq<Message>)
  {
    && (|m| > 0 ==> m[0].role == Assistant)
    && (forall i :: 0 <= i < |m| ==> m[i].role != System)
    && (forall i :: 0 < i < |m| && m[i].role == Assistant ==> m[i - 1].role == User)
  }

  /** Assistant and user messages alternate, the assistant first. */
  ghost predicate Alternates(m: seq<Message>)
  {
    forall i :: 0 <= i < |m| ==> m[i].role == (if i % 2 == 0 then Assistant else User)
  }

  /** A transcript produced by a greeting followed by successful turns
      only: empty, or of odd length and alternating. */
  ghost predicate Clean(m: seq<Message>)
  {
    m == [] || (|m| % 2 == 1 && Alternates(m))
  }

  /** One successful exchange keeps a non-empty clean transcript clean. */
  lemma CleanExchange(m: seq<Message>, text: string, reply: string)
    requires Clean(m) && m != []
    ensures Clean(m + [Message(User, text), Message(Assistant, reply)])
  {
  }
}
