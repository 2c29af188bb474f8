/** The per-session state object: the history list that the handlers append
    to in place and the two counters beside it. Each method is proved against
    the value-level state machine in module Orchestrator. */
module SessionState {
  import opened Transcript
  import opened Completion
  import opened Orchestrator

  class ChatSession {
    var messages: seq<Message>
    var conversationCount: nat
    var totalTokens: nat

    /** The session state as a value. */
    function State(): Session
      reads this
    {
      Session(messages, conversationCount, totalTokens)
    }

    /** The displayed "Messages" counter equals the displayed history length. */
    ghost predicate Valid()
      reads this
    {
      CountMatches(State())
    }

    /** The first run of the script creates the three entries. */
    constructor ()
      ensures State() == Initial()
      ensures Valid()
    {
      messages := [];
      totalTokens := 0;
      conversationCount := 0;
    }

    /** The Clear button. */
    method Clear()
      modifies this
      ensures State() == Cleared(old(State()))
      ensures Valid() && messages == [] && totalTokens == old(totalTokens)
    {
      messages := [];
      conversationCount := 0;
    }

    /** The lifecycle shared by the Send button and the quick prompts. */
    method Exchange(prompt: string, params: Params, reply: CallResult) returns (report: Report)
      modifies this
      ensures Step(State(), report) == Orchestrator.Exchange(old(State()), prompt, params, reply)
      ensures old(Valid()) ==> Valid()
    {
      messages := messages + [Message(User, prompt)];
      conversationCount := conversationCount + 1;
      var request := BuildRequest(messages, params);
      var content := FirstChoiceContent(reply);
      match content {
        case Some(text) =>
          messages := messages + [Message(Assistant, text)];
          conversationCount := conversationCount + 1;
          report := Answered(request);
        case None =>
          report := Failed(request);
      }
    }

    /** The Send button with the current text of the input box. */
    method Send(pressed: bool, input: string, params: Params, reply: CallResult) returns (report: Report)
      modifies this
      ensures Step(State(), report) == Submit(old(State()), pressed, input, params, reply)
      ensures old(Valid()) ==> Valid()
    {
      if pressed && input != "" {
        report := Exchange(input, params, reply);
      } else {
        report := NotSent;
      }
    }

    /** Quick-prompt button `i`. */
    method QuickPrompt(i: PromptIndex, params: Params, reply: CallResult) returns (report: Report)
      modifies this
      ensures Step(State(), report) == Orchestrator.QuickPrompt(old(State()), i, params, reply)
      ensures old(Valid()) ==> Valid()
    {
      report := Exchange(QuickPrompts[i], params, reply);
    }

    /** The loop over the four quick-prompt buttons in one script run: each
        pressed button runs its handler, and an answered call reruns the
        script, which ends the loop. */
    method QuickPromptBar(clicked: seq<bool>, params: Params, replies: seq<CallResult>) returns (reports: seq<Report>)
      requires |clicked| == |QuickPrompts| && |replies| == |QuickPrompts|
      modifies this
      ensures (State(), reports) == QuickBar(old(State()), clicked, params, replies, 0)
      ensures old(Valid()) ==> Valid()
    {
      ghost var final := QuickBar(State(), clicked, params, replies, 0);
      reports := [];
      assert reports + final.1 == final.1;
      for idx := 0 to |QuickPrompts|
        invariant QuickBar(State(), clicked, params, replies, idx).0 == final.0
        invariant reports + QuickBar(State(), clicked, params, replies, idx).1 == final.1
        invariant old(Valid()) ==> Valid()
      {
        if clicked[idx] {
          ghost var before := State();
          var report := QuickPrompt(idx, params, replies[idx]);
          QuickBarPressed(before, clicked, params, replies, idx);
          if report.Answered? {
            reports := reports + [report];
            break;
          }
          ghost var rest := QuickBar(State(), clicked, params, replies, idx + 1).1;
          assert reports + [report] + rest == reports + ([report] + rest);
          reports := reports + [report];
        }
      }
      assert reports + [] == reports;
    }
  }

  /** A fresh session, one answered joke request. */
  method JokeScenario(params: Params)
  {
    var session := new ChatSession();
    var report := session.Send(true, "Tell me a joke", params, Returned([Choice("Why did...")]));
    assert session.messages == [Message(User, "Tell me a joke"), Message(Assistant, "Why did...")];
    assert session.conversationCount == 2;
    assert report.Answered? && report.request.messages == [WireMessage("user", "Tell me a joke")];
  }

  /** Empty text with the Send button pressed issues no request. */
  method EmptyInputScenario(params: Params, reply: CallResult)
  {
    var session := new ChatSession();
    var report := session.Send(true, "", params, reply);
    assert report == NotSent && session.messages == [] && session.conversationCount == 0;
  }

  /** A raised call keeps only the user record and reports an error. */
  method FailureScenario(params: Params)
  {
    var session := new ChatSession();
    var report := session.Send(true, "Hi", params, Raised);
    assert report.Failed? && session.messages == [Message(User, "Hi")] && session.conversationCount == 1;
  }
}
