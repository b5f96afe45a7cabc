/**
 * The popup's chat transcript: the greeting it opens with, the pending
 * context-menu request it picks up on mount, the messages the user sends
 * and the summaries the content actions produce.
 */
module App {
  import opened Wrappers
  import Background
  import ContextMenu
  import Api

  datatype Sender = User | Assistant

  /** A transcript entry; ids and timestamps are left out. */
  datatype ChatMessage = ChatMessage(content: string, sender: Sender)

  const GreetingText := "Hello! I'm ClarifAI. What can I help you with?"
  const Greeting := ChatMessage(GreetingText, Assistant)
  const ProcessingTail := "**\n\nProcessing your request..."
  const RequestErrorHead := "Sorry, I encountered an error while processing your context menu request: "
  const RequestErrorTail := "\n\nPlease try again or ask your question directly in the chat."

  /** The message shown while a context-menu request is processed. */
  function ProcessingMessage(action: string): ChatMessage {
    ChatMessage("\U{1F3AF} **" + action + ProcessingTail, Assistant)
  }

  /** The message that replaces it when `processRequest` throws. */
  function RequestErrorMessage(msg: string): ChatMessage {
    ChatMessage(RequestErrorHead + msg + RequestErrorTail, Assistant)
  }

  /** What the popup's `getPendingRequest` yields for the stored record. */
  function PickedUp(stored: Option<Background.PendingRequest>, now: int, reachable: bool): Option<Background.PendingRequest> {
    if reachable then ContextMenu.FreshRequest(stored, now) else None
  }

  class ChatApp {
    var messages: seq<ChatMessage>
    var isLoading: bool

    /** The transcript always opens with the greeting. */
    predicate Valid()
      reads this
    {
      messages != [] && messages[0] == Greeting
    }

    /** The initial state: the greeting alone, not loading. */
    constructor()
      ensures messages == [Greeting] && !isLoading
      ensures Valid()
    {
      messages := [Greeting];
      isLoading := false;
    }

    /**
     * `handlePendingContextMenuRequests()`: with no request nothing changes.
     * Otherwise one "Processing" message is shown and later replaced by the
     * answer or by the error text, so the transcript grows by exactly one.
     * The slot is cleared only once `processRequest` has succeeded, before
     * the answer is fetched; the prompt it returns (for an image, the
     * finished description) is what `fetchAIResponse` is asked.
     */
    method HandlePendingContextMenuRequests(registry: ContextMenu.HandlerRegistry, slot: Background.PendingSlot,
                                            now: int, reachable: bool, env: ContextMenu.Env, assistant: Api.Assistant)
      requires Valid()
      modifies this, registry, slot
      ensures Valid()
      ensures var p := PickedUp(old(slot.stored), now, reachable);
        && (p.None? ==> messages == old(messages) && isLoading == old(isLoading))
        && (p.Some? ==>
              && |messages| == |old(messages)| + 1 && messages[..|old(messages)|] == old(messages) && !isLoading
              && var prompt := ContextMenu.ProcessRequest(env, p.value).value;
              && (prompt.Ok? ==>
                    && messages[|old(messages)|] == ChatMessage(Api.FetchAIResponse(assistant, prompt.value, true).value, Assistant)
                    && slot.stored == None)
              && (prompt.Err? ==>
                    && messages[|old(messages)|] == RequestErrorMessage(prompt.msg)
                    && slot.stored == old(slot.stored)))
      ensures !reachable ==> slot.stored == old(slot.stored)
      ensures reachable && PickedUp(old(slot.stored), now, reachable).None? ==> slot.stored == None
    {
      var handler := registry.GetInstance();
      var pending := handler.GetPendingRequest(slot, now, reachable);
      if pending.None? {
        return;
      }
      var request := pending.value;
      assert slot.stored == old(slot.stored);
      messages := messages + [ProcessingMessage(ContextMenu.GetActionMessage(request))];
      isLoading := true;
      var prompt := ContextMenu.ProcessRequest(env, request);
      match prompt.value {
        case Ok(text) =>
          handler.ClearPendingRequest(slot);
          var answer := Api.FetchAIResponse(assistant, text, true);
          messages := messages[..|messages| - 1] + [ChatMessage(answer.value, Assistant)];
          isLoading := false;
        case Err(msg) =>
          messages := messages[..|messages| - 1] + [RequestErrorMessage(msg)];
          isLoading := false;
      }
    }

    /**
     * `handleSendMessage(content)`: the user's message, then exactly one
     * answer. `fetchAIResponse` never fails, so the answer is always its
     * result and the generic error text is never shown.
     */
    method HandleSendMessage(content: string, assistant: Api.Assistant)
      requires Valid()
      modifies this
      ensures Valid()
      ensures messages == old(messages) + [ChatMessage(content, User), ChatMessage(Api.FetchAIResponse(assistant, content, true).value, Assistant)]
      ensures !isLoading
    {
      messages := messages + [ChatMessage(content, User)];
      isLoading := true;
      var answer := Api.FetchAIResponse(assistant, content, true);
      messages := messages + [ChatMessage(answer.value, Assistant)];
      isLoading := false;
    }

    /** `handleSummaryGenerated(summary)`: one assistant message; `isLoading` is left alone. */
    method HandleSummaryGenerated(summary: string)
      requires Valid()
      modifies this
      ensures Valid()
      ensures messages == old(messages) + [ChatMessage(summary, Assistant)]
      ensures isLoading == old(isLoading)
    {
      messages := messages + [ChatMessage(summary, Assistant)];
    }
  }
}
