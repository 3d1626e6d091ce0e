/** The text of a message that arrives in parts. */
module ChatStream {
  import opened Wrappers
  import opened ChatHistory
  import opened ChatReducer

  /** What the chat shows for an item. */
  function TextOf(chat: Chat, item: string): string {
    var found := Find(chat.messages, item, None);
    if found.Some? then found.value.text else ""
  }

  /** The event is another part of the item's text, or has nothing to do with the item. */
  predicate PartOrOther(event: Event, item: string) {
    match event
    case UserMessage(_, other, _, _) => other != item
    case AssistantMessage(_, other, _, complete) => other == item ==> !complete
    case ToolChanged(_, other) => other != item
    case ToolOutput(_, other) => other != item
    case _ => true
  }

  /** The parts in order, without those of discarded turns. */
  function Parts(discarded: seq<string>, events: seq<Event>, item: string): string {
    if events == [] then ""
    else Part(discarded, events[0], item) + Parts(discarded, events[1..], item)
  }

  function Part(discarded: seq<string>, event: Event, item: string): string {
    if event.AssistantMessage? && event.item == item && (event.turn == "" || event.turn !in discarded) then event.text else ""
  }

  /** A reply has no client name, so nothing else is taken for it. */
  predicate Plain(messages: seq<Message>, item: string) {
    forall m :: m in messages && m.id == item ==> m.clientId.None?
  }

  /** `b` has the messages of that item where `a` has them, and as they were. */
  lemma {:induction false} FindSame(a: seq<Message>, b: seq<Message>, item: string)
    requires |a| <= |b|
    requires forall i :: 0 <= i < |a| ==> if a[i].id == item then b[i] == a[i] else b[i].id != item
    requires forall i :: |a| <= i < |b| ==> b[i].id != item
    ensures Find(a, item, None) == Find(b, item, None)
    decreases |b|
  {
    if a != [] {
      if a[0].id != item {
        FindSame(a[1..], b[1..], item);
      }
    } else if b != [] {
      FindSame(a, b[1..], item);
    }
  }

  /** The message takes the place of those of its item, or the last place. */
  lemma {:induction false} FindNew(a: seq<Message>, b: seq<Message>, message: Message)
    requires |a| <= |b| <= |a| + 1
    requires forall i :: 0 <= i < |a| ==> if a[i].id == message.id then b[i] == message else b[i] == a[i]
    requires |b| > |a| ==> b[|a|] == message
    requires |b| == |a| ==> exists i :: 0 <= i < |a| && a[i].id == message.id
    ensures Find(b, message.id, None) == Some(message)
  {
    if a != [] && a[0].id != message.id {
      FindNew(a[1..], b[1..], message);
    }
  }

  lemma UpsertOther(messages: seq<Message>, message: Message, overlay: Message -> Message, item: string)
    requires Plain(messages, item) && message.id != item
    requires forall m: Message :: m.id != item ==> overlay(m).id != item
    ensures Find(Upsert(messages, message, overlay), item, None) == Find(messages, item, None)
    ensures Plain(Upsert(messages, message, overlay), item)
  {
    FindSame(messages, Upsert(messages, message, overlay), item);
  }

  /** One event adds its part to the text of the item. */
  lemma ReduceAddsPart(chat: Chat, event: Event, item: string)
    requires Plain(chat.messages, item) && PartOrOther(event, item)
    ensures TextOf(Reduce(chat, event), item) == TextOf(chat, item) + Part(chat.discarded, event, item)
    ensures Plain(Reduce(chat, event).messages, item)
    ensures Reduce(chat, event).discarded == chat.discarded
  {
    if TurnOf(event).None? || !Discarded(chat, TurnOf(event).value) {
      match event
      case UserMessage(t, other, clientId, text) => UserMessageApart(chat, t, other, clientId, text, item);
      case AssistantMessage(t, other, text, complete) => AssistantAddsPart(chat, t, other, text, complete, item);
      case ToolChanged(t, other) => ToolApart(chat, t, other, item);
      case ToolOutput(t, other) => ToolOutputApart(chat, t, other, item);
      case _ =>
    }
  }

  lemma UserMessageApart(chat: Chat, t: string, other: string, clientId: Option<string>, text: string, item: string)
    requires Plain(chat.messages, item) && other != item
    ensures TextOf(WithUserMessage(chat, t, other, clientId, text), item) == TextOf(chat, item)
    ensures Plain(WithUserMessage(chat, t, other, clientId, text).messages, item)
  {
    var previous := Find(chat.messages, other, clientId);
    var message := Message(other, clientId, true, Some(t), text,
                           previous.Some? && previous.value.complete, SentAt(chat, t, previous));
    UpsertOther(chat.messages, message, _ => message, item);
  }

  lemma AssistantAddsPart(chat: Chat, t: string, other: string, text: string, complete: bool, item: string)
    requires Plain(chat.messages, item) && (other == item ==> !complete)
    ensures TextOf(WithAssistantMessage(chat, t, other, text, complete), item) ==
              TextOf(chat, item) + if other == item then text else ""
    ensures Plain(WithAssistantMessage(chat, t, other, text, complete).messages, item)
  {
    var previous := Find(chat.messages, other, None);
    var before := if previous.Some? then previous.value else Message(other, None, false, None, "", false, None);
    var message := before.(user := false,
                           turn := Known(t, before.turn, chat.turn),
                           text := if complete then text else before.text + text,
                           complete := complete);
    if other == item {
      FindNew(chat.messages, Upsert(chat.messages, message, _ => message), message);
    } else {
      UpsertOther(chat.messages, message, _ => message, item);
    }
  }

  lemma ToolApart(chat: Chat, t: string, other: string, item: string)
    requires Plain(chat.messages, item) && other != item
    ensures TextOf(WithTool(chat, t, other), item) == TextOf(chat, item) && Plain(WithTool(chat, t, other).messages, item)
  {
    var message := Message(other, None, false, Known(t, None, chat.turn), "", false, None);
    UpsertOther(chat.messages, message, (m: Message) => m.(user := false, turn := message.turn, text := ""), item);
  }

  lemma ToolOutputApart(chat: Chat, t: string, other: string, item: string)
    requires Plain(chat.messages, item) && other != item
    ensures TextOf(WithToolOutput(chat, t, other), item) == TextOf(chat, item)
    ensures Plain(WithToolOutput(chat, t, other).messages, item)
  {
    var previous := Find(chat.messages, other, None);
    var before := if previous.Some? then previous.value else Message(other, None, false, None, "", false, None);
    var message := before.(user := false, turn := Known(t, None, chat.turn), text := "");
    UpsertOther(chat.messages, message, _ => message, item);
  }

  /** The shown text is what was there and all parts in order, whatever else arrives
      in between, and whatever is lost is lost as a whole with its turn. */
  lemma {:induction false} StreamedText(chat: Chat, events: seq<Event>, item: string)
    requires Plain(chat.messages, item)
    requires forall event :: event in events ==> PartOrOther(event, item)
    ensures TextOf(ReduceAll(chat, events), item) == TextOf(chat, item) + Parts(chat.discarded, events, item)
    decreases |events|
  {
    if events != [] {
      ReduceAddsPart(chat, events[0], item);
      StreamedText(Reduce(chat, events[0]), events[1..], item);
      Associates(TextOf(chat, item), Part(chat.discarded, events[0], item), Parts(chat.discarded, events[1..], item));
    }
  }

  lemma Associates(a: string, b: string, c: string)
    ensures (a + b) + c == a + (b + c)
  {}

  /** A final message replaces the parts. */
  lemma FinalText(chat: Chat, turn: string, item: string, text: string)
    requires Plain(chat.messages, item) && !Discarded(chat, turn)
    ensures TextOf(Reduce(chat, AssistantMessage(turn, item, text, true)), item) == text
  {
    var previous := Find(chat.messages, item, None);
    var before := if previous.Some? then previous.value else Message(item, None, false, None, "", false, None);
    var message := before.(user := false, turn := Known(turn, before.turn, chat.turn), text := text, complete := true);
    FindNew(chat.messages, Upsert(chat.messages, message, _ => message), message);
  }
}
