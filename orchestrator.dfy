/** The session's chat state machine on values: what initialisation, the
    Clear button, the Send button and the quick-prompt buttons do to the
    history and the two counters, and which request each one issues. */
module Orchestrator {
  import opened Transcript
  import opened Completion

  /** The three session-state entries the script keeps:
      `messages`, `conversation_count` and `total_tokens`. */
  datatype Session = Session(messages: seq<Message>, conversationCount: nat, totalTokens: nat)

  /** The counter shown as "Messages" agrees with the history length. */
  predicate CountMatches(s: Session)
  {
    s.conversationCount == |s.messages|
  }

  /** What one handler did besides changing the state: no call was made,
      the call answered (the script then reruns), or the call failed and an
      error was shown. */
  datatype Report = NotSent | Answered(request: Request) | Failed(request: Request)

  datatype Step = Step(after: Session, report: Report)

  /** Session state as first created. */
  function Initial(): (s: Session)
    ensures CountMatches(s) && s.messages == [] && s.totalTokens == 0
  {
    Session([], 0, 0)
  }

  /** The Clear button: history and message counter reset, whatever their
      size; `total_tokens` is left as it was. */
  function Cleared(s: Session): (r: Session)
    ensures r.messages == [] && CountMatches(r)
    ensures r.totalTokens == s.totalTokens
  {
    Session([], 0, s.totalTokens)
  }

  /** One exchange with the completion API for `prompt`: append the user
      record, issue one request over the whole history, and on a usable
      reply append the assistant record. */
  function Exchange(s: Session, prompt: string, params: Params, reply: CallResult): (r: Step)
    ensures !r.report.NotSent?
    ensures r.report.request == BuildRequest(s.messages + [Message(User, prompt)], params)
    ensures r.report.Answered? <==> FirstChoiceContent(reply).Some?
    ensures r.report.Answered? ==>
      r.after.messages == s.messages + [Message(User, prompt), Message(Assistant, FirstChoiceContent(reply).value)]
      && r.after.conversationCount == s.conversationCount + 2
    ensures r.report.Failed? ==>
      r.after.messages == s.messages + [Message(User, prompt)]
      && r.after.conversationCount == s.conversationCount + 1
    ensures r.after.totalTokens == s.totalTokens
    ensures CountMatches(s) ==> CountMatches(r.after)
  {
    var withUser := Session(s.messages + [Message(User, prompt)], s.conversationCount + 1, s.totalTokens);
    var request := BuildRequest(withUser.messages, params);
    match FirstChoiceContent(reply)
    case Some(content) =>
      Step(Session(withUser.messages + [Message(Assistant, content)], withUser.conversationCount + 1, s.totalTokens),
           Answered(request))
    case None =>
      Step(withUser, Failed(request))
  }

  /** The Send button handler: it fires only when the button was pressed and
      the text is non-empty. Any non-empty text, whitespace included, is sent. */
  function Submit(s: Session, pressed: bool, input: string, params: Params, reply: CallResult): (r: Step)
    ensures r.report.NotSent? <==> !pressed || input == ""
    ensures r.report.NotSent? ==> r.after == s
    ensures !r.report.NotSent? ==> r == Exchange(s, input, params, reply)
  {
    if pressed && input != "" then Exchange(s, input, params, reply) else Step(s, NotSent)
  }

  /** The four canned prompts of the quick-prompt bar. */
  const QuickPrompts: seq<string> := [
    "Tell me a joke \U{1F604}",
    "Explain quantum computing \U{1F52C}",
    "Write a short story \U{1F4D6}",
    "Give me coding tips \U{1F4BB}"
  ]

  lemma QuickPromptsNonEmpty()
    ensures |QuickPrompts| == 4
    ensures forall i :: 0 <= i < |QuickPrompts| ==> QuickPrompts[i] != ""
  {
  }

  type PromptIndex = i: nat | i < 4

  /** The handler of quick-prompt button `i`. It has no guard of its own and
      behaves exactly as a Send of the canned text. */
  function QuickPrompt(s: Session, i: PromptIndex, params: Params, reply: CallResult): (r: Step)
    ensures r == Submit(s, true, QuickPrompts[i], params, reply)
  {
    QuickPromptsNonEmpty();
    Exchange(s, QuickPrompts[i], params, reply)
  }

  /** The loop over the quick-prompt buttons within one script run, from
      button `from` on: every pressed button runs its handler, and an answered
      call ends the run (the script reruns), so later buttons are not reached. */
  function QuickBar(s: Session, clicked: seq<bool>, params: Params, replies: seq<CallResult>, from: nat)
    : (r: (Session, seq<Report>))
    requires |clicked| == |QuickPrompts| && |replies| == |QuickPrompts|
    requires from <= |QuickPrompts|
    decreases |QuickPrompts| - from
  {
    if from == |QuickPrompts| then (s, [])
    else if !clicked[from] then QuickBar(s, clicked, params, replies, from + 1)
    else
      var st := QuickPrompt(s, from, params, replies[from]);
      if st.report.Answered? then (st.after, [st.report])
      else
        var rest := QuickBar(st.after, clicked, params, replies, from + 1);
        (rest.0, [st.report] + rest.1)
  }

  /** A pressed button runs its handler; the loop goes on unless it was answered. */
  lemma QuickBarPressed(s: Session, clicked: seq<bool>, params: Params, replies: seq<CallResult>, from: nat)
    requires |clicked| == |QuickPrompts| && |replies| == |QuickPrompts|
    requires from < |QuickPrompts| && clicked[from]
    ensures var st := QuickPrompt(s, from, params, replies[from]);
      QuickBar(s, clicked, params, replies, from)
        == if st.report.Answered? then (st.after, [st.report])
           else (QuickBar(st.after, clicked, params, replies, from + 1).0,
                 [st.report] + QuickBar(st.after, clicked, params, replies, from + 1).1)
  {
  }

  /** What one pass of the quick-prompt loop promises for any buttons and
      replies: `total_tokens` is kept, counter == length is preserved, the
      history is only appended to, every report comes from an issued call,
      and every report but the last is a failure, since an answered call
      ends the run. */
  lemma {:induction false} QuickBarKeeps(s: Session, clicked: seq<bool>, params: Params, replies: seq<CallResult>, from: nat)
    requires |clicked| == |QuickPrompts| && |replies| == |QuickPrompts|
    requires from <= |QuickPrompts|
    ensures var r := QuickBar(s, clicked, params, replies, from);
      r.0.totalTokens == s.totalTokens
      && (CountMatches(s) ==> CountMatches(r.0))
      && |r.0.messages| >= |s.messages| && r.0.messages[..|s.messages|] == s.messages
      && (forall k :: 0 <= k < |r.1| ==> !r.1[k].NotSent?)
      && (forall k :: 0 <= k < |r.1| - 1 ==> r.1[k].Failed?)
    decreases |QuickPrompts| - from
  {
    if from < |QuickPrompts| {
      if !clicked[from] {
        QuickBarKeeps(s, clicked, params, replies, from + 1);
      } else {
        var st := QuickPrompt(s, from, params, replies[from]);
        if !st.report.Answered? {
          QuickBarKeeps(st.after, clicked, params, replies, from + 1);
          var rest := QuickBar(st.after, clicked, params, replies, from + 1);
          assert rest.0.messages[..|s.messages|] == rest.0.messages[..|st.after.messages|][..|s.messages|];
          var reps := [st.report] + rest.1;
          forall k | 0 <= k < |reps| ensures !reps[k].NotSent? {
            if k > 0 { assert reps[k] == rest.1[k - 1]; }
          }
          forall k | 0 <= k < |reps| - 1 ensures reps[k].Failed? {
            if k > 0 { assert reps[k] == rest.1[k - 1]; }
          }
        }
      }
    }
  }

  /** Buttons from `from` on that are not pressed change nothing. */
  lemma {:induction false} QuickBarIdle(s: Session, clicked: seq<bool>, params: Params, replies: seq<CallResult>, from: nat)
    requires |clicked| == |QuickPrompts| && |replies| == |QuickPrompts|
    requires from <= |QuickPrompts|
    requires forall j :: from <= j < |QuickPrompts| ==> !clicked[j]
    ensures QuickBar(s, clicked, params, replies, from) == (s, [])
    decreases |QuickPrompts| - from
  {
    if from < |QuickPrompts| {
      QuickBarIdle(s, clicked, params, replies, from + 1);
    }
  }

  /** With only button `i` pressed, the loop is exactly that button's handler. */
  lemma {:induction false} QuickBarSingleClick(s: Session, clicked: seq<bool>, params: Params, replies: seq<CallResult>, i: PromptIndex)
    requires |clicked| == |QuickPrompts| && |replies| == |QuickPrompts|
    requires forall j :: 0 <= j < |QuickPrompts| ==> clicked[j] == (j == i)
    ensures var st := QuickPrompt(s, i, params, replies[i]);
      QuickBar(s, clicked, params, replies, 0) == (st.after, [st.report])
  {
    var st := QuickPrompt(s, i, params, replies[i]);
    QuickBarIdle(st.after, clicked, params, replies, i + 1);
    QuickBarSkip(s, clicked, params, replies, 0, i);
    assert [st.report] + [] == [st.report];
  }

  /** Unpressed buttons before `stop` are skipped. */
  lemma {:induction false} QuickBarSkip(s: Session, clicked: seq<bool>, params: Params, replies: seq<CallResult>, from: nat, stop: nat)
    requires |clicked| == |QuickPrompts| && |replies| == |QuickPrompts|
    requires from <= stop <= |QuickPrompts|
    requires forall j :: from <= j < stop ==> !clicked[j]
    ensures QuickBar(s, clicked, params, replies, from) == QuickBar(s, clicked, params, replies, stop)
    decreases stop - from
  {
    if from < stop {
      QuickBarSkip(s, clicked, params, replies, from + 1, stop);
    }
  }

  /** One user interaction, i.e. one script run triggered by a button. */
  datatype Event =
    | SendClick(input: string, params: Params, reply: CallResult)
    | QuickClick(index: PromptIndex, params: Params, reply: CallResult)
    | ClearClick

  function Apply(s: Session, e: Event): Step
  {
    match e
    case SendClick(input, params, reply) => Submit(s, true, input, params, reply)
    case QuickClick(i, params, reply) => QuickPrompt(s, i, params, reply)
    case ClearClick => Step(Cleared(s), NotSent)
  }

  /** The state after a sequence of interactions, with one report each. */
  function Run(s: Session, events: seq<Event>): (r: (Session, seq<Report>))
    ensures |r.1| == |events|
    decreases |events|
  {
    if events == [] then (s, [])
    else
      var st := Apply(s, events[0]);
      var rest := Run(st.after, events[1..]);
      (rest.0, [st.report] + rest.1)
  }

  function CountAnswered(reports: seq<Report>): nat
  {
    if reports == [] then 0
    else (if reports[0].Answered? then 1 else 0) + CountAnswered(reports[1..])
  }

  function CountFailed(reports: seq<Report>): nat
  {
    if reports == [] then 0
    else (if reports[0].Failed? then 1 else 0) + CountFailed(reports[1..])
  }

  predicate NoClear(events: seq<Event>)
  {
    forall i :: 0 <= i < |events| ==> !events[i].ClearClick?
  }

  /** Every interaction, Clear included, keeps the counter equal to the
      history length, and none changes `total_tokens`. */
  lemma {:induction false} RunKeepsCounters(s: Session, events: seq<Event>)
    requires CountMatches(s)
    ensures CountMatches(Run(s, events).0)
    ensures Run(s, events).0.totalTokens == s.totalTokens
    decreases |events|
  {
    if events != [] {
      RunKeepsCounters(Apply(s, events[0]).after, events[1..]);
    }
  }

  /** Without Clear, the history only grows at its end, and the counter rises
      by two per answered call and by one per failed call. */
  lemma {:induction false} RunAppendsOnly(s: Session, events: seq<Event>)
    requires NoClear(events)
    ensures var r := Run(s, events);
      |r.0.messages| >= |s.messages| && r.0.messages[..|s.messages|] == s.messages
      && r.0.conversationCount == s.conversationCount + 2 * CountAnswered(r.1) + CountFailed(r.1)
      && |r.0.messages| == |s.messages| + 2 * CountAnswered(r.1) + CountFailed(r.1)
    decreases |events|
  {
    if events != [] {
      var st := Apply(s, events[0]);
      assert NoClear(events[1..]) by {
        forall i | 0 <= i < |events[1..]| ensures !events[1..][i].ClearClick? {
          assert events[1..][i] == events[i + 1];
        }
      }
      RunAppendsOnly(st.after, events[1..]);
      var rest := Run(st.after, events[1..]);
      assert |st.after.messages| >= |s.messages| && st.after.messages[..|s.messages|] == s.messages;
      assert rest.0.messages[..|s.messages|] == rest.0.messages[..|st.after.messages|][..|s.messages|];
      assert ([st.report] + rest.1)[1..] == rest.1;
    }
  }

  /** From a fresh session and without Clear, the counter is twice the number
      of answered calls plus the number of failed ones. */
  lemma CountFromInitial(events: seq<Event>)
    requires NoClear(events)
    ensures var r := Run(Initial(), events);
      r.0.conversationCount == |r.0.messages| == 2 * CountAnswered(r.1) + CountFailed(r.1)
  {
    RunAppendsOnly(Initial(), events);
  }

  /** After a failed call the user record stays in the history, so sending
      the same text again puts it into the next request twice. */
  lemma RetryRepeatsPrompt(s: Session, input: string, params: Params, params2: Params, reply: CallResult, reply2: CallResult)
    requires input != ""
    requires FirstChoiceContent(reply).None?
    ensures var first := Submit(s, true, input, params, reply);
      var second := Submit(first.after, true, input, params2, reply2);
      var sent := second.report.request.messages;
      |sent| == |s.messages| + 2
      && sent[|sent| - 2] == sent[|sent| - 1] == WireMessage("user", input)
  {
  }

  /** The request a send issues ends with the user record just appended,
      preceded by the projection of the earlier history. */
  lemma SentPayloadEndsWithPrompt(s: Session, input: string, params: Params, reply: CallResult)
    requires input != ""
    ensures var sent := Submit(s, true, input, params, reply).report.request.messages;
      sent == Payload(s.messages) + [WireMessage("user", input)]
  {
    PayloadAppend(s.messages, Message(User, input));
  }
}
