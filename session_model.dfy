/** The participant session as a value: the fields the script keeps in
    `st.session_state`, one step function per user action, the invariant
    every step preserves, and properties of whole sequences of actions. */
module SessionModel {
  import opened Wrappers
  import opened Catalog
  import opened Conversation

  /** The participant form's fields together with the start date. */
  datatype UserInfo = UserInfo(name: string, surname: string, birthplace: string, startDate: string)

  /** The screen the script shows. */
  datatype Phase = Identity | TopicChoice | Chat

  /** The `if / elif / else` on the two flags that picks the screen. */
  function PhaseOf(userDataCollected: bool, promptSelected: bool): (p: Phase)
    ensures p == Identity <==> !userDataCollected
    ensures p == TopicChoice <==> userDataCollected && !promptSelected
    ensures p == Chat <==> userDataCollected && promptSelected
  {
    if !userDataCollected then Identity
    else if !promptSelected then TopicChoice
    else Chat
  }

  /** The session-state fields. `userInfo` is `None` while the dictionary
      is still empty; `conversationPhase` and `initialScore` are written
      but never read. */
  datatype State = State(
    userDataCollected: bool,
    promptSelected: bool,
    greetingSent: bool,
    userInfo: Option<UserInfo>,
    selectedPromptKey: Option<string>,
    messages: seq<Message>,
    conversationPhase: string,
    initialScore: Option<int>)
  {
    function Phase(): (p: Phase)
    {
      PhaseOf(userDataCollected, promptSelected)
    }
  }

  /** The values the script gives each field when it first runs. */
  const Init: State := State(false, false, false, None, None, [], "initial_greeting", None)

  /** A row of the results sheet, field by field; `transcript` stands for
      the serialised message list. */
  datatype Row = Row(
    name: string,
    surname: string,
    birthplace: string,
    promptKey: string,
    topicTitle: string,
    transcript: seq<Message>,
    timestamp: string)

  /** The seven cells written to the sheet, in their fixed order;
      `dumps` is the JSON serialiser. */
  function Cells(r: Row, dumps: seq<Message> -> string): (cells: seq<string>)
  {
    [r.name, r.surname, r.birthplace, r.promptKey, r.topicTitle, dumps(r.transcript), r.timestamp]
  }

  /** One user action, with the outcomes of the calls it makes: `None`
      for a completion call that raises, `stored` false for a sheet
      append that raises, `now` for the clock. */
  datatype Action =
    | Submit(name: string, surname: string, birthplace: string, now: string)
    | Select(key: string)
    | Greet(greeting: Option<string>)
    | Say(text: string, reply: Option<string>, stored: bool, now: string)
    | ChangeTopic

  /** The state after an action, and the sheet row it appended, if any. */
  datatype Effect = Effect(state: State, appended: Option<Row>)

  /** Python truthiness of the three form fields: each is non-empty. */
  predicate Filled(name: string, surname: string, birthplace: string)
  {
    name != "" && surname != "" && birthplace != ""
  }

  /** What holds of every state the script can reach. */
  ghost predicate Inv(s: State)
  {
    && (s.promptSelected ==> s.userDataCollected)
    && (s.userDataCollected <==> s.userInfo.Some?)
    && (s.userInfo.Some? ==> Filled(s.userInfo.value.name, s.userInfo.value.surname, s.userInfo.value.birthplace))
    && (s.selectedPromptKey.Some? ==> s.userDataCollected && s.selectedPromptKey.value in Prompts)
    && (s.promptSelected ==> s.selectedPromptKey.Some?)
    && (s.greetingSent ==> s.promptSelected)
    && (s.greetingSent <==> s.messages != [])
    && WellFormed(s.messages)
  }

  /** The chat screen's lookups of `PROMPTS[selected_prompt_key]` and
      `user_info['name']` succeed; if they did not, the script would raise
      before changing anything. */
  predicate ChatLoads(s: State)
  {
    && s.Phase() == Chat
    && s.userInfo.Some?
    && s.selectedPromptKey.Some?
    && s.selectedPromptKey.value in Prompts
  }

  /** The catalogue entry the chat screen shows. */
  function CurrentTopic(s: State): (t: Topic)
    requires ChatLoads(s)
  {
    Prompts[s.selectedPromptKey.value]
  }

  /** In every state satisfying the invariant, the chat screen's lookups succeed. */
  lemma ChatScreenLoads(s: State)
    requires Inv(s) && s.Phase() == Chat
    ensures ChatLoads(s)
  {
  }

  // ---- the actions ----

  /** Form submission: accepted only on the identity screen with all
      three fields filled. */
  function SubmitStep(s: State, name: string, surname: string, birthplace: string, now: string): (t: State)
  {
    if s.Phase() == Identity && Filled(name, surname, birthplace) then
      s.(userInfo := Some(UserInfo(name, surname, birthplace, now)), userDataCollected := true)
    else
      s
  }

  /** A topic button: only catalogue keys have buttons, and only on the
      topic screen. */
  function SelectStep(s: State, key: string): (t: State)
  {
    if s.Phase() == TopicChoice && key in Prompts then
      s.(selectedPromptKey := Some(key), promptSelected := true)
    else
      s
  }

  predicate CanGreet(s: State)
  {
    ChatLoads(s) && !s.greetingSent
  }

  /** The opening greeting; a failed completion call leaves the state as it was. */
  function GreetStep(s: State, greeting: Option<string>): (t: State)
  {
    if CanGreet(s) && greeting.Some? then
      s.(messages := s.messages + [Message(Assistant, greeting.value)],
         greetingSent := true,
         conversationPhase := "opinion_measurement")
    else
      s
  }

  /** The chat input is shown only on the chat screen after the greeting,
      and an empty submission is falsy. */
  predicate CanSay(s: State, text: string)
  {
    ChatLoads(s) && s.greetingSent && text != ""
  }

  /** The row written after an exchange that completed in state `s`. */
  function RowOf(s: State, now: string): (r: Row)
    requires ChatLoads(s)
  {
    var info := s.userInfo.value;
    var key := s.selectedPromptKey.value;
    Row(info.name, info.surname, info.birthplace, key, Prompts[key].title, s.messages, now)
  }

  /** A chat turn: the user message is appended before the completion
      call, so it stays when that call raises; the reply is appended when
      it returns; the row is written last. */
  function SayStep(s: State, text: string, reply: Option<string>, stored: bool, now: string): (e: Effect)
  {
    if !CanSay(s, text) then Effect(s, None)
    else
      var asked := s.(messages := s.messages + [Message(User, text)]);
      match reply
      case None => Effect(asked, None)
      case Some(r) =>
        var answered := asked.(messages := asked.messages + [Message(Assistant, r)]);
        Effect(answered, if stored then Some(RowOf(answered, now)) else None)
  }

  /** "Change Topic": back to the topic screen with an empty transcript. */
  function ChangeTopicStep(s: State): (t: State)
  {
    if ChatLoads(s) then
      s.(promptSelected := false, messages := [], greetingSent := false)
    else
      s
  }

  function Step(s: State, a: Action): (e: Effect)
  {
    match a
    case Submit(name, surname, birthplace, now) => Effect(SubmitStep(s, name, surname, birthplace, now), None)
    case Select(key) => Effect(SelectStep(s, key), None)
    case Greet(greeting) => Effect(GreetStep(s, greeting), None)
    case Say(text, reply, stored, now) => SayStep(s, text, reply, stored, now)
    case ChangeTopic => Effect(ChangeTopicStep(s), None)
  }

  /** Every action keeps the invariant. */
  lemma StepPreservesInv(s: State, a: Action)
    requires Inv(s)
    ensures Inv(Step(s, a).state)
  {
  }

  // ---- sequences of actions ----

  /** The final state and the rows appended by a sequence of actions. */
  datatype Trace = Trace(final: State, rows: seq<Row>)

  /** The final state and the rows appended when `step` is applied to
      each action in turn. */
  function Fold(step: (State, Action) -> Effect, s: State, acts: seq<Action>): (t: Trace)
    decreases |acts|
  {
    if acts == [] then Trace(s, [])
    else
      var e := step(s, acts[0]);
      var rest := Fold(step, e.state, acts[1..]);
      Trace(rest.final, (if e.appended.Some? then [e.appended.value] else []) + rest.rows)
  }

  /** A session driven by a sequence of user actions. */
  function Run(s: State, acts: seq<Action>): (t: Trace)
  {
    Fold(Step, s, acts)
  }

  /** Folding `p` then `q` yields the rows of `p` followed by those of `q`. */
  lemma {:induction false} FoldConcat(step: (State, Action) -> Effect, s: State, p: seq<Action>, q: seq<Action>)
    ensures Fold(step, s, p + q).rows == Fold(step, s, p).rows + Fold(step, Fold(step, s, p).final, q).rows
    ensures Fold(step, s, p + q).final == Fold(step, Fold(step, s, p).final, q).final
    decreases |p|
  {
    if p == [] {
      assert p + q == q;
    } else {
      assert (p + q)[0] == p[0] && (p + q)[1..] == p[1..] + q;
      FoldConcat(step, step(s, p[0]).state, p[1..], q);
    }
  }

  /** Any sequence of actions keeps the invariant. */
  lemma {:induction false} RunPreservesInv(s: State, acts: seq<Action>)
    requires Inv(s)
    ensures Inv(Run(s, acts).final)
    decreases |acts|
  {
    if acts != [] {
      StepPreservesInv(s, acts[0]);
      RunPreservesInv(Step(s, acts[0]).state, acts[1..]);
    }
  }

  /** Every reachable state satisfies the invariant; in particular the
      chat screen always finds its topic in the catalogue. */
  lemma ReachableInv(acts: seq<Action>)
    ensures Inv(Run(Init, acts).final)
    ensures Run(Init, acts).final.Phase() == Chat ==> ChatLoads(Run(Init, acts).final)
  {
    RunPreservesInv(Init, acts);
  }

  /** A property of `Fold` for any step function, instantiated for
      `Step`: the rows of `p` then `q` are the rows of `p` followed by
      those of `q`, so a later action never changes an earlier row. How
      many rows the script writes is `RowsCount`. */
  lemma RowsAppendOnly(s: State, p: seq<Action>, q: seq<Action>)
    ensures Run(s, p + q).rows == Run(s, p).rows + Run(Run(s, p).final, q).rows
    ensures Run(s, p + q).final == Run(Run(s, p).final, q).final
  {
    FoldConcat(Step, s, p, q);
  }

  /** Whether action `a` taken in state `s` is an exchange that reaches
      the sheet: an enabled turn whose reply arrived and whose append
      succeeded. */
  predicate SavesRow(s: State, a: Action)
  {
    a.Say? && CanSay(s, a.text) && a.reply.Some? && a.stored
  }

  /** The number of actions along a run that save a row. */
  function Exchanges(s: State, acts: seq<Action>): (n: nat)
    decreases |acts|
  {
    if acts == [] then 0
    else (if SavesRow(s, acts[0]) then 1 else 0) + Exchanges(Step(s, acts[0]).state, acts[1..])
  }

  /** The number of turns whose reply arrived and whose append succeeded,
      whether or not their input was shown. */
  function SavedTurns(acts: seq<Action>): (n: nat)
    decreases |acts|
  {
    if acts == [] then 0
    else (if acts[0].Say? && acts[0].reply.Some? && acts[0].stored then 1 else 0) + SavedTurns(acts[1..])
  }

  /** Exactly one row is written per exchange that reaches the sheet, and
      none for any other action. */
  lemma {:induction false} RowsCount(s: State, acts: seq<Action>)
    ensures |Run(s, acts).rows| == Exchanges(s, acts)
    ensures Exchanges(s, acts) <= SavedTurns(acts)
    decreases |acts|
  {
    if acts != [] {
      var e := Step(s, acts[0]);
      RowsCount(e.state, acts[1..]);
      var head := if e.appended.Some? then [e.appended.value] else [];
      assert Run(s, acts).rows == head + Run(e.state, acts[1..]).rows;
      assert e.appended.Some? <==> SavesRow(s, acts[0]);
    }
  }

  /** No action takes back the participant's identity once it is collected. */
  lemma {:induction false} IdentityIsPermanent(s: State, acts: seq<Action>)
    requires s.userDataCollected
    ensures Run(s, acts).final.userDataCollected
    ensures Run(s, acts).final.userInfo == s.userInfo
    decreases |acts|
  {
    if acts != [] {
      IdentityIsPermanent(Step(s, acts[0]).state, acts[1..]);
    }
  }

  ghost predicate NoFailedTurn(acts: seq<Action>)
  {
    forall i :: 0 <= i < |acts| && acts[i].Say? ==> acts[i].reply.Some?
  }

  /** With only successful turns, the transcript is empty or of odd
      length, opens with the assistant and alternates assistant / user. */
  lemma {:induction false} SuccessfulTurnsAlternate(s: State, acts: seq<Action>)
    requires Inv(s) && Clean(s.messages) && NoFailedTurn(acts)
    ensures Clean(Run(s, acts).final.messages)
    decreases |acts|
  {
    if acts != [] {
      var a := acts[0];
      var t := Step(s, a).state;
      match a {
        case Say(text, reply, stored, now) =>
          if CanSay(s, text) {
            assert acts[0].Say?;
            CleanExchange(s.messages, text, reply.value);
          }
        case Greet(g) =>
          if CanGreet(s) && g.Some? {
            assert t.messages == [Message(Assistant, g.value)];
          }
        case _ =>
      }
      StepPreservesInv(s, a);
      assert NoFailedTurn(acts[1..]) by {
        forall i | 0 <= i < |acts[1..]| && acts[1..][i].Say? ensures acts[1..][i].reply.Some? {
          assert acts[1..][i] == acts[i + 1];
        }
      }
      SuccessfulTurnsAlternate(t, acts[1..]);
    }
  }

  /** Every row written holds the participant's form fields, a catalogue
      key with its title, and a transcript that ends with the exchange
      just completed. */
  ghost predicate GoodRow(r: Row)
  {
    && Filled(r.name, r.surname, r.birthplace)
    && r.promptKey in Prompts
    && r.topicTitle == Prompts[r.promptKey].title
    && |r.transcript| >= 3
    && r.transcript[|r.transcript| - 1].role == Assistant
    && r.transcript[|r.transcript| - 2].role == User
  }

  lemma {:induction false} RowsAreGood(s: State, acts: seq<Action>)
    requires Inv(s)
    ensures forall i :: 0 <= i < |Run(s, acts).rows| ==> GoodRow(Run(s, acts).rows[i])
    decreases |acts|
  {
    if acts != [] {
      var e := Step(s, acts[0]);
      StepPreservesInv(s, acts[0]);
      RowsAreGood(e.state, acts[1..]);
      var head := if e.appended.Some? then [e.appended.value] else [];
      assert Run(s, acts).rows == head + Run(e.state, acts[1..]).rows;
      if e.appended.Some? {
        assert GoodRow(e.appended.value);
      }
    }
  }

  // ---- single actions ----

  /** The form advances exactly when all three fields are filled, records
      exactly those values and the start date, and otherwise changes nothing. */
  lemma SubmitSpec(s: State, name: string, surname: string, birthplace: string, now: string)
    requires Inv(s) && s.Phase() == Identity
    ensures var t := SubmitStep(s, name, surname, birthplace, now);
      && (t.userDataCollected <==> Filled(name, surname, birthplace))
      && (t.userDataCollected ==> t.userInfo == Some(UserInfo(name, surname, birthplace, now)) && t.Phase() == TopicChoice)
      && (!t.userDataCollected ==> t == s)
  {
  }

  /** Picking a topic stores a catalogue key and opens the chat screen;
      nothing else changes. */
  lemma SelectSpec(s: State, key: string)
    requires Inv(s) && s.Phase() == TopicChoice && key in Prompts
    ensures SelectStep(s, key) == s.(selectedPromptKey := Some(key), promptSelected := true)
    ensures SelectStep(s, key).Phase() == Chat
    ensures CurrentTopic(SelectStep(s, key)) == Prompts[key]
  {
  }

  /** The greeting fires at most once per topic: once sent, a later
      greeting changes nothing, and a sent greeting stored exactly one
      assistant message and no seed turn. */
  lemma GreetOnce(s: State, g: Option<string>, h: Option<string>)
    requires Inv(s)
    ensures s.greetingSent ==> GreetStep(s, g) == s
    ensures CanGreet(s) && g.Some? ==> GreetStep(s, g).messages == [Message(Assistant, g.value)]
    ensures CanGreet(s) && g.Some? ==> GreetStep(GreetStep(s, g), h) == GreetStep(s, g)
  {
  }

  /** A successful turn appends the user message then the reply and keeps
      every earlier message; a turn whose completion call raises keeps the
      user message; nothing else in the state changes. */
  lemma SaySpec(s: State, text: string, reply: Option<string>, stored: bool, now: string)
    requires Inv(s) && CanSay(s, text)
    ensures var e := SayStep(s, text, reply, stored, now);
      && e.state.messages[..|s.messages|] == s.messages
      && e.state.messages[|s.messages|] == Message(User, text)
      && (reply.Some? ==> |e.state.messages| == |s.messages| + 2
                          && e.state.messages[|s.messages| + 1] == Message(Assistant, reply.value))
      && (reply.None? ==> |e.state.messages| == |s.messages| + 1 && e.appended.None?)
      && e.state == s.(messages := e.state.messages)
      && (e.appended.Some? <==> reply.Some? && stored)
  {
  }

  /** The row written after a successful exchange has the form fields,
      the key and its title, the whole transcript and the clock's time. */
  lemma SayRow(s: State, text: string, reply: string, now: string)
    requires Inv(s) && CanSay(s, text)
    ensures var e := SayStep(s, text, Some(reply), true, now);
      var info := s.userInfo.value;
      var key := s.selectedPromptKey.value;
      e.appended == Some(Row(info.name, info.surname, info.birthplace, key, Prompts[key].title,
                             s.messages + [Message(User, text), Message(Assistant, reply)], now))
  {
    assert s.messages + [Message(User, text)] + [Message(Assistant, reply)]
        == s.messages + [Message(User, text), Message(Assistant, reply)];
  }

  /** A failed turn followed by a retry of the same text stores the user
      message twice before the reply, so the transcript stops alternating. */
  lemma RetryAfterFailureRepeatsUserTurn(s: State, text: string, reply: string, now: string)
    requires Inv(s) && CanSay(s, text)
    ensures var failed := SayStep(s, text, None, true, now).state;
      Inv(failed) && CanSay(failed, text) &&
      SayStep(failed, text, Some(reply), true, now).state.messages
        == s.messages + [Message(User, text), Message(User, text), Message(Assistant, reply)]
    ensures !Alternates(SayStep(SayStep(s, text, None, true, now).state, text, Some(reply), true, now).state.messages)
  {
    StepPreservesInv(s, Say(text, None, true, now));
    var m := SayStep(SayStep(s, text, None, true, now).state, text, Some(reply), true, now).state.messages;
    var n := |s.messages|;
    assert m[n].role == User && m[n + 1].role == User;
  }

  /** "Change Topic" clears the topic flag, the greeting flag and the
      transcript, and leaves the identity and the stored key untouched. */
  lemma ChangeTopicSpec(s: State)
    requires Inv(s) && s.Phase() == Chat
    ensures var t := ChangeTopicStep(s);
      && !t.promptSelected && !t.greetingSent && t.messages == []
      && t.userDataCollected == s.userDataCollected
      && t.userInfo == s.userInfo
      && t.selectedPromptKey == s.selectedPromptKey
      && t.conversationPhase == s.conversationPhase
      && t.initialScore == s.initialScore
      && t.Phase() == TopicChoice
  {
  }
}
