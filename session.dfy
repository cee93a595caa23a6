/** The script's `st.session_state` as an object whose fields each user
    action updates in place, and the results sheet it appends to. Every
    method is tied to the step function of SessionModel for its action. */
module SessionState {
  import opened Wrappers
  import opened Catalog
  import opened Conversation
  import opened SessionModel

  /** The results sheet: a sequence of rows that only grows. */
  class Sheet {
    var rows: seq<seq<string>>

    constructor ()
      ensures rows == []
    {
      rows := [];
    }

    method AppendRow(row: seq<string>)
      modifies this
      ensures rows == old(rows) + [row]
    {
      rows := rows + [row];
    }
  }

  class Session {
    var userDataCollected: bool
    var promptSelected: bool
    var greetingSent: bool
    var userInfo: Option<UserInfo>
    var selectedPromptKey: Option<string>
    var messages: seq<Message>
    var conversationPhase: string
    var initialScore: Option<int>

    /** The fields as a value of the session model. */
    function Snapshot(): State
      reads this
    {
      State(userDataCollected, promptSelected, greetingSent, userInfo,
            selectedPromptKey, messages, conversationPhase, initialScore)
    }

    ghost predicate Valid()
      reads this
    {
      Inv(Snapshot())
    }

    /** The first run of the script sets every missing field to its default. */
    constructor ()
      ensures Valid() && Snapshot() == Init
    {
      userDataCollected := false;
      promptSelected := false;
      userInfo := None;
      messages := [];
      greetingSent := false;
      conversationPhase := "initial_greeting";
      initialScore := None;
      selectedPromptKey := None;
    }

    /** The participant form's submit button. */
    method SubmitForm(name: string, surname: string, birthplace: string, now: string) returns (accepted: bool)
      requires Valid()
      modifies this
      ensures Valid()
      ensures accepted <==> !old(userDataCollected) && Filled(name, surname, birthplace)
      ensures accepted ==> userDataCollected && userInfo == Some(UserInfo(name, surname, birthplace, now))
      ensures accepted ==> Snapshot() == old(Snapshot()).(userDataCollected := true, userInfo := userInfo)
      ensures !accepted ==> Snapshot() == old(Snapshot())
      ensures Snapshot() == SubmitStep(old(Snapshot()), name, surname, birthplace, now)
    {
      accepted := !userDataCollected && name != "" && surname != "" && birthplace != "";
      if accepted {
        userInfo := Some(UserInfo(name, surname, birthplace, now));
        userDataCollected := true;
      }
      StepPreservesInv(old(Snapshot()), Submit(name, surname, birthplace, now));
    }

    /** The "Select" button of catalogue entry `key`. */
    method SelectTopic(key: string) returns (accepted: bool)
      requires Valid()
      modifies this
      ensures Valid()
      ensures accepted <==> old(Snapshot().Phase()) == TopicChoice && key in Prompts
      ensures accepted ==> Snapshot() == old(Snapshot()).(selectedPromptKey := Some(key), promptSelected := true)
      ensures !accepted ==> Snapshot() == old(Snapshot())
      ensures Snapshot() == SelectStep(old(Snapshot()), key)
    {
      accepted := userDataCollected && !promptSelected && key in Prompts;
      if accepted {
        selectedPromptKey := Some(key);
        promptSelected := true;
      }
      StepPreservesInv(old(Snapshot()), Select(key));
    }

    /** The opening greeting on the chat screen. `greeting` is what the
        completion service returned, `None` if the call raised. The
        request sent is returned, `None` if none was sent. */
    method SendGreeting(greeting: Option<string>) returns (request: Option<seq<Message>>)
      requires Valid()
      modifies this
      ensures Valid()
      ensures request.Some? <==> old(CanGreet(Snapshot()))
      ensures request.Some? ==> request.value == GreetingRequest(CurrentTopic(old(Snapshot())).systemPrompt)
      ensures messages == if request.Some? && greeting.Some? then old(messages) + [Message(Assistant, greeting.value)] else old(messages)
      ensures greetingSent == (old(greetingSent) || (request.Some? && greeting.Some?))
      ensures (request.None? || greeting.None?) ==> Snapshot() == old(Snapshot())
      ensures Snapshot() == GreetStep(old(Snapshot()), greeting)
    {
      if !(userDataCollected && promptSelected && !greetingSent) {
        request := None;
        return;
      }
      var systemPrompt := Prompts[selectedPromptKey.value].systemPrompt;
      request := Some(GreetingRequest(systemPrompt));
      if greeting.Some? {
        messages := messages + [Message(Assistant, greeting.value)];
        greetingSent := true;
        conversationPhase := "opinion_measurement";
      }
      StepPreservesInv(old(Snapshot()), Greet(greeting));
    }

    /** A message typed into the chat input. `reply` is the completed
        (streamed) reply, `None` if the completion call raised; `stored`
        is false if the sheet append raised; `dumps` is the JSON
        serialiser and `now` the clock's formatted time. */
    method Turn(text: string, reply: Option<string>, sheet: Sheet, stored: bool,
                dumps: seq<Message> -> string, now: string) returns (request: Option<seq<Message>>)
      requires Valid()
      modifies this, sheet
      ensures Valid()
      ensures request.Some? <==> old(CanSay(Snapshot(), text))
      ensures request.Some? ==>
                request.value == BuildRequest(CurrentTopic(old(Snapshot())).systemPrompt, old(messages) + [Message(User, text)])
      ensures messages ==
        if request.None? then old(messages)
        else if reply.None? then old(messages) + [Message(User, text)]
        else old(messages) + [Message(User, text), Message(Assistant, reply.value)]
      ensures Snapshot() == old(Snapshot()).(messages := messages)
      ensures sheet.rows == old(sheet.rows) +
        if request.Some? && reply.Some? && stored then [Cells(RowOf(Snapshot(), now), dumps)] else []
      ensures Snapshot() == SayStep(old(Snapshot()), text, reply, stored, now).state
      ensures var e := SayStep(old(Snapshot()), text, reply, stored, now);
        sheet.rows == old(sheet.rows) + if e.appended.Some? then [Cells(e.appended.value, dumps)] else []
    {
      if !(userDataCollected && promptSelected && greetingSent && text != "") {
        request := None;
        return;
      }
      var info := userInfo.value;
      var key := selectedPromptKey.value;
      var topic := Prompts[key];
      messages := messages + [Message(User, text)];
      request := Some(BuildRequest(topic.systemPrompt, messages));
      if reply.None? {
        StepPreservesInv(old(Snapshot()), Say(text, reply, stored, now));
        return;
      }
      messages := messages + [Message(Assistant, reply.value)];
      StepPreservesInv(old(Snapshot()), Say(text, reply, stored, now));
      assert old(messages) + [Message(User, text)] + [Message(Assistant, reply.value)]
          == old(messages) + [Message(User, text), Message(Assistant, reply.value)];
      if stored {
        sheet.AppendRow(Cells(Row(info.name, info.surname, info.birthplace, key, topic.title, messages, now), dumps));
      }
    }

    /** The "Change Topic" button on the chat screen. */
    method ChangeTopic() returns (accepted: bool)
      requires Valid()
      modifies this
      ensures Valid()
      ensures accepted <==> old(Snapshot().Phase()) == Chat
      ensures accepted ==> Snapshot() == old(Snapshot()).(promptSelected := false, messages := [], greetingSent := false)
      ensures !accepted ==> Snapshot() == old(Snapshot())
      ensures Snapshot() == ChangeTopicStep(old(Snapshot()))
    {
      accepted := userDataCollected && promptSelected;
      if accepted {
        promptSelected := false;
        messages := [];
        greetingSent := false;
      }
      StepPreservesInv(old(Snapshot()), SessionModel.ChangeTopic);
    }
  }

  /** The form and the topic screen: a blank field and a key outside the
      catalogue are refused. */
  method FormWalkthrough()
  {
    var session := new Session();
    var ok := session.SubmitForm("", "Rossi", "Roma", "t0");
    assert !ok && session.Snapshot() == Init;
    ok := session.SubmitForm("Ada", "Rossi", "Roma", "t0");
    assert ok && session.Snapshot().Phase() == TopicChoice;
    ok := session.SelectTopic("7");
    assert !ok;
    ok := session.SelectTopic("2");
    assert ok && session.Snapshot().Phase() == Chat;
  }

  /** The chat screen: one greeting, one exchange and its row, then
      "Change Topic". */
  method ChatWalkthrough(dumps: seq<Message> -> string)
  {
    var session := new Session();
    var sheet := new Sheet();
    var ok := session.SubmitForm("Ada", "Rossi", "Roma", "t0");
    ok := session.SelectTopic("2");
    var request := session.SendGreeting(Some("Hello"));
    assert request == Some([Message(System, Prompts["2"].systemPrompt), Message(User, Seed)]);
    request := session.SendGreeting(Some("Hello again"));
    assert request.None?;
    request := session.Turn("Hi", Some("Welcome"), sheet, true, dumps, "t1");
    assert session.messages == [Message(Assistant, "Hello"), Message(User, "Hi"), Message(Assistant, "Welcome")];
    assert sheet.rows == [["Ada", "Rossi", "Roma", "2", "Mental Health & Wellness", dumps(session.messages), "t1"]];
    ok := session.ChangeTopic();
    assert ok && session.messages == [] && session.selectedPromptKey == Some("2");
  }
}
