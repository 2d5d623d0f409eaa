/**
 * The deterministic bookkeeping of the LangGraph agent in agentic.py: the
 * node that turns pending input into a user message, the confirmation
 * router, the filter that drops orphaned tool results before the planner
 * sees the conversation, and the two routing predicates. The planner's LLM
 * call, the tool executor and the graph wiring are outside the model.
 */
module Agentic {
  import opened Maybe
  import opened Strings

  /** A chat message; only an assistant message can request tool calls. */
  datatype Message =
    | Human(content: string)
    | System(content: string)
    | AI(content: string, hasToolCalls: bool)
    | Tool(content: string)

  const CONFIRM_WORDS: seq<string> := ["yes", "confirm", "ok", "go ahead", "sí", "si", "proceed"]
  const CANCEL_WORDS: seq<string> := ["no", "cancel", "change", "different", "nope"]
  const CONFIRMED_NOTE := "User confirmed. Proceed with the proposed action."
  const CANCELLED_NOTE := "User cancelled. Ask what they'd like to do instead."

  /** `any(w in text for w in words)`: some word occurs as a substring. */
  predicate AnyIn(words: seq<string>, text: string) {
    exists k | 0 <= k < |words| :: Contains(text, words[k])
  }

  /** The position of the last user message, or -1 when there is none. */
  function LastHumanIndex(msgs: seq<Message>): (r: int)
    ensures -1 <= r < |msgs|
    ensures 0 <= r ==> msgs[r].Human?
    ensures forall j | r < j < |msgs| :: !msgs[j].Human?
    decreases |msgs|
  {
    if msgs == [] then -1
    else if msgs[|msgs| - 1].Human? then |msgs| - 1
    else LastHumanIndex(msgs[..|msgs| - 1])
  }

  /** The content of the last user message, if there is one. */
  function LastHuman(msgs: seq<Message>): Option<string> {
    var i := LastHumanIndex(msgs);
    if i < 0 then None else Some(msgs[i].content)
  }

  /** What `router_node` compares against the word lists: the last user message, lower-cased, or "". */
  function LastUserText(msgs: seq<Message>): string {
    LowerStr(LastHuman(msgs).GetOr(""))
  }

  /** The backwards scan of `router_node` for the last user message. */
  method FindLastUserText(msgs: seq<Message>) returns (lastUser: string)
    ensures lastUser == LastUserText(msgs)
  {
    var i := |msgs|;
    while i > 0
      invariant 0 <= i <= |msgs|
      invariant LastHumanIndex(msgs) == LastHumanIndex(msgs[..i])
    {
      var prefix := msgs[..i];
      assert prefix[..i - 1] == msgs[..i - 1];
      if msgs[i - 1].Human? {
        return LowerStr(msgs[i - 1].content);
      }
      i := i - 1;
    }
    return LowerStr("");
  }

  /** The fields of the agent state that the modelled nodes read or write. */
  class AgentState {
    var messages: seq<Message>
    var awaitingConfirmation: bool
    var proposal: map<string, string>
    /** Pending user text; `None` once it has been turned into a message. */
    var input: Option<string>

    constructor (messages: seq<Message>, awaitingConfirmation: bool, proposal: map<string, string>, input: Option<string>)
      ensures this.messages == messages && this.awaitingConfirmation == awaitingConfirmation
      ensures this.proposal == proposal && this.input == input
    {
      this.messages := messages;
      this.awaitingConfirmation := awaitingConfirmation;
      this.proposal := proposal;
      this.input := input;
    }

    /** `prepare_input`: non-empty pending text becomes one user message and is removed. */
    method PrepareInput()
      modifies this
      ensures old(input).Some? && old(input).value != "" ==>
                messages == old(messages) + [Human(old(input).value)] && input.None?
      ensures !(old(input).Some? && old(input).value != "") ==>
                messages == old(messages) && input == old(input)
      ensures awaitingConfirmation == old(awaitingConfirmation) && proposal == old(proposal)
    {
      if input.Some? && input.value != "" {
        messages := messages + [Human(input.value)];
        input := None;
      }
    }

    /**
     * `router_node`: while a confirmation is pending, a confirm word in the
     * last user message clears the flag and appends a note for the planner; a
     * cancel word (looked for only when no confirm word occurs) also drops
     * the proposal. Otherwise nothing changes.
     */
    method RouterNode()
      modifies this
      ensures input == old(input)
      ensures !old(awaitingConfirmation) ==>
                messages == old(messages) && !awaitingConfirmation && proposal == old(proposal)
      ensures old(awaitingConfirmation) && AnyIn(CONFIRM_WORDS, LastUserText(old(messages))) ==>
                messages == old(messages) + [System(CONFIRMED_NOTE)]
                && !awaitingConfirmation && proposal == old(proposal)
      ensures old(awaitingConfirmation) && !AnyIn(CONFIRM_WORDS, LastUserText(old(messages)))
              && AnyIn(CANCEL_WORDS, LastUserText(old(messages))) ==>
                messages == old(messages) + [System(CANCELLED_NOTE)]
                && !awaitingConfirmation && proposal == map[]
      ensures old(awaitingConfirmation) && !AnyIn(CONFIRM_WORDS, LastUserText(old(messages)))
              && !AnyIn(CANCEL_WORDS, LastUserText(old(messages))) ==>
                messages == old(messages) && awaitingConfirmation && proposal == old(proposal)
    {
      if awaitingConfirmation {
        var lastUser := FindLastUserText(messages);
        var confirm := AnyWordIn(CONFIRM_WORDS, lastUser);
        if confirm {
          awaitingConfirmation := false;
          messages := messages + [System(CONFIRMED_NOTE)];
        } else {
          var cancel := AnyWordIn(CANCEL_WORDS, lastUser);
          if cancel {
            awaitingConfirmation := false;
            proposal := map[];
            messages := messages + [System(CANCELLED_NOTE)];
          }
        }
      }
    }
  }

  /** The generator scan behind `any(...)`. */
  method AnyWordIn(words: seq<string>, text: string) returns (found: bool)
    ensures found <==> AnyIn(words, text)
  {
    found := false;
    for k := 0 to |words|
      invariant !exists j | 0 <= j < k :: Contains(text, words[j])
    {
      if Contains(text, words[k]) {
        return true;
      }
    }
  }

  /** Without a user message there is nothing to match, so the router waits. */
  lemma NoUserMessageKeepsWaiting(msgs: seq<Message>)
    requires forall j | 0 <= j < |msgs| :: !msgs[j].Human?
    ensures !AnyIn(CONFIRM_WORDS, LastUserText(msgs)) && !AnyIn(CANCEL_WORDS, LastUserText(msgs))
  {
    assert LastUserText(msgs) == [];
  }

  /**
   * The words are matched as substrings, and confirmation is looked for
   * first: "no, look elsewhere" confirms, because "look" contains "ok".
   */
  lemma SubstringConfirms()
    ensures AnyIn(CONFIRM_WORDS, "no, look elsewhere") && AnyIn(CANCEL_WORDS, "no, look elsewhere")
  {
    assert OccursAt("no, look elsewhere", CONFIRM_WORDS[2], 6);
    assert OccursAt("no, look elsewhere", CANCEL_WORDS[0], 0);
  }

  // ---------------------------------------------------------------- the ToolMessage filter of `assistant`

  /** A tool result may follow only an assistant message that requested tools. */
  predicate ToolAllowedAfter(kept: seq<Message>) {
    kept != [] && kept[|kept| - 1].AI? && kept[|kept| - 1].hasToolCalls
  }

  /** The messages that are not tool results, in order. */
  function NonTool(msgs: seq<Message>): seq<Message>
    decreases |msgs|
  {
    if msgs == [] then []
    else NonTool(msgs[..|msgs| - 1]) + (if msgs[|msgs| - 1].Tool? then [] else [msgs[|msgs| - 1]])
  }

  /** `a` is `b` with some elements left out. */
  predicate SubsequenceOf(a: seq<Message>, b: seq<Message>)
    decreases |b|
  {
    if a == [] then true
    else if b == [] then false
    else (a[|a| - 1] == b[|b| - 1] && SubsequenceOf(a[..|a| - 1], b[..|b| - 1]))
         || SubsequenceOf(a, b[..|b| - 1])
  }

  /** What the filter loop keeps. */
  function Filtered(msgs: seq<Message>): (kept: seq<Message>)
    ensures SubsequenceOf(kept, msgs)
    ensures NonTool(kept) == NonTool(msgs)
    ensures forall i | 0 <= i < |kept| && kept[i].Tool? :: ToolAllowedAfter(kept[..i])
    decreases |msgs|
  {
    if msgs == [] then []
    else
      var before := msgs[..|msgs| - 1];
      var init := Filtered(before);
      var m := msgs[|msgs| - 1];
      LastSplit(msgs);
      SubsequenceSnoc(init, before, m);
      NonToolSnoc(before, m);
      if m.Tool? && !ToolAllowedAfter(init) then init
      else
        NonToolSnoc(init, m);
        AllowedSnoc(init, m);
        init + [m]
  }

  lemma SubsequenceSnoc(a: seq<Message>, b: seq<Message>, m: Message)
    requires SubsequenceOf(a, b)
    ensures SubsequenceOf(a, b + [m]) && SubsequenceOf(a + [m], b + [m])
  {
    var b', a' := b + [m], a + [m];
    assert b'[..|b'| - 1] == b;
    assert a'[..|a'| - 1] == a;
  }

  lemma NonToolSnoc(a: seq<Message>, m: Message)
    ensures NonTool(a + [m]) == NonTool(a) + (if m.Tool? then [] else [m])
  {
    assert (a + [m])[..|a|] == a;
  }

  lemma AllowedSnoc(init: seq<Message>, m: Message)
    requires forall i | 0 <= i < |init| && init[i].Tool? :: ToolAllowedAfter(init[..i])
    requires m.Tool? ==> ToolAllowedAfter(init)
    ensures forall i | 0 <= i < |init + [m]| && (init + [m])[i].Tool? :: ToolAllowedAfter((init + [m])[..i])
  {
    var kept := init + [m];
    forall i | 0 <= i < |kept| && kept[i].Tool?
      ensures ToolAllowedAfter(kept[..i])
    {
      if i < |init| {
        assert kept[..i] == init[..i];
      } else {
        assert kept[..i] == init;
      }
    }
  }

  /** The filter loop of `assistant`. */
  method FilterMessages(msgs: seq<Message>) returns (kept: seq<Message>)
    ensures kept == Filtered(msgs)
  {
    kept := [];
    for i := 0 to |msgs|
      invariant kept == Filtered(msgs[..i])
    {
      assert msgs[..i + 1][..i] == msgs[..i];
      var m := msgs[i];
      if m.Tool? {
        if kept != [] && kept[|kept| - 1].AI? && kept[|kept| - 1].hasToolCalls {
          kept := kept + [m];
        }
      } else {
        kept := kept + [m];
      }
    }
    assert msgs[..|msgs|] == msgs;
  }

  /** Of two adjacent kept messages, the second is never a second tool result. */
  lemma FilteredNoToolRuns(msgs: seq<Message>, i: nat)
    requires i + 1 < |Filtered(msgs)| && Filtered(msgs)[i].Tool?
    ensures !Filtered(msgs)[i + 1].Tool?
  {
    var kept := Filtered(msgs);
    assert kept[..i + 1][i] == kept[i];
  }

  // ---------------------------------------------------------------- routing

  datatype Route = ToTools | ToAssistant | ToEnd

  /** `should_call_tool`; `None` is the `IndexError` it raises on an empty conversation. */
  function ShouldCallTool(msgs: seq<Message>): (r: Option<Route>)
    ensures r.None? <==> msgs == []
    ensures r == Some(ToTools) <==> msgs != [] && msgs[|msgs| - 1].AI? && msgs[|msgs| - 1].hasToolCalls
    ensures r.Some? ==> r.value != ToAssistant
  {
    if msgs == [] then None
    else
      var last := msgs[|msgs| - 1];
      Some(if last.AI? && last.hasToolCalls then ToTools else ToEnd)
  }

  /** `should_continue`. */
  function ShouldContinue(msgs: seq<Message>): (r: Route)
    ensures r == ToAssistant <==> msgs != [] && msgs[|msgs| - 1].Tool?
    ensures r != ToTools
  {
    if msgs != [] && msgs[|msgs| - 1].Tool? then ToAssistant else ToEnd
  }

  /**
   * A tool result answering a tool-calling assistant message sends the
   * graph back to the assistant, and the filter lets it through.
   */
  lemma ToolAnswerReachesAssistant(msgs: seq<Message>, answer: string)
    requires ShouldCallTool(msgs) == Some(ToTools)
    ensures ShouldContinue(msgs + [Tool(answer)]) == ToAssistant
    ensures Filtered(msgs + [Tool(answer)]) == Filtered(msgs) + [Tool(answer)]
  {
    var init, last := msgs[..|msgs| - 1], msgs[|msgs| - 1];
    LastSplit(msgs);
    FilteredAppend(init, last);
    FilteredAppend(msgs, Tool(answer));
  }

  /** The filter on one more message: it is kept unless it is a tool result with nothing to answer. */
  lemma FilteredAppend(msgs: seq<Message>, m: Message)
    ensures Filtered(msgs + [m])
            == if m.Tool? && !ToolAllowedAfter(Filtered(msgs)) then Filtered(msgs) else Filtered(msgs) + [m]
  {
    var extended := msgs + [m];
    assert extended[..|extended| - 1] == msgs;
  }

  lemma LastSplit(msgs: seq<Message>)
    requires msgs != []
    ensures msgs == msgs[..|msgs| - 1] + [msgs[|msgs| - 1]]
  {
  }
}
