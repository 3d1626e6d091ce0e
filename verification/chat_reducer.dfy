/** The chat state and the events, snapshots and history pages that change it. */
module ChatReducer {
  import opened Wrappers
  import opened StableSorting
  import opened ChatHistory

  datatype Plan = Plan(turn: string, text: string)

  datatype Chat = Chat(
    messages: seq<Message>, turn: Option<string>, turns: map<string, TurnState>, plan: Option<Plan>,
    questions: seq<string>, warning: Option<string>, closed: bool, discarded: seq<string>)

  /** Plan messages and messages differ only in what is not modelled here; so do the
      two requests. `Other` changes nothing that is modelled. */
  datatype Event =
    | UserMessage(turn: string, item: string, clientId: Option<string>, text: string)
    | AssistantMessage(turn: string, item: string, text: string, complete: bool)
    | ToolChanged(turn: string, item: string)
    | ToolOutput(turn: string, item: string)
    | TurnStarted(id: string, startedAt: Option<int>)
    | TurnCompleted(id: string, startedAt: Option<int>, status: string, message: Option<string>)
    | PlanChanged(plan: Plan)
    | Requested(request: string)
    | Unsupported(kind: string)
    | Resolved(request: string)
    | Warned(warning: string)
    | Closed(reason: Option<string>)
    | Other

  const INITIAL := Chat([], None, map[], None, [], None, false, [])

  // ----- Events -----

  function TurnOf(event: Event): Option<string> {
    match event
    case UserMessage(turn, _, _, _) => Some(turn)
    case AssistantMessage(turn, _, _, _) => Some(turn)
    case ToolChanged(turn, _) => Some(turn)
    case ToolOutput(turn, _) => Some(turn)
    case TurnStarted(id, _) => Some(id)
    case TurnCompleted(id, _, _, _) => Some(id)
    case PlanChanged(plan) => Some(plan.turn)
    case _ => None
  }

  /** An empty identifier never counts as discarded. */
  predicate Discarded(chat: Chat, turn: string) {
    turn != "" && turn in chat.discarded
  }

  predicate Matches(m: Message, id: string, clientId: Option<string>) {
    m.id == id || (clientId.Some? && clientId.value != "" && m.clientId == clientId)
  }

  function Find(messages: seq<Message>, id: string, clientId: Option<string>): (r: Option<Message>)
    ensures r.Some? ==> r.value in messages && Matches(r.value, id, clientId)
    ensures r.None? ==> forall m :: m in messages ==> !Matches(m, id, clientId)
  {
    if messages == [] then None
    else if Matches(messages[0], id, clientId) then Some(messages[0])
    else Find(messages[1..], id, clientId)
  }

  /** Overlay every matching message, or add the message at the end. */
  function Upsert(messages: seq<Message>, message: Message, overlay: Message -> Message): seq<Message> {
    if exists i :: 0 <= i < |messages| && Matches(messages[i], message.id, message.clientId)
    then seq(|messages|, i requires 0 <= i < |messages| =>
      if Matches(messages[i], message.id, message.clientId) then overlay(messages[i]) else messages[i])
    else messages + [message]
  }

  /** The first turn that is not empty. */
  function Known(turn: string, previous: Option<string>, current: Option<string>): Option<string> {
    if turn != "" then Some(turn)
    else if previous.Some? && previous.value != "" then previous
    else if current.Some? && current.value != "" then current
    else None
  }

  function SentAt(chat: Chat, turn: string, previous: Option<Message>): Option<int> {
    if previous.Some? && previous.value.sentAt.Some? then previous.value.sentAt
    else if exists m :: m in chat.messages && m.turn == Some(turn) && m.user then None
    else if turn in chat.turns then chat.turns[turn].startedAt
    else None
  }

  function WithUserMessage(chat: Chat, turn: string, item: string, clientId: Option<string>, text: string): Chat {
    var previous := Find(chat.messages, item, clientId);
    var message := Message(item, clientId, true, Some(turn), text,
                           previous.Some? && previous.value.complete, SentAt(chat, turn, previous));
    chat.(messages := Upsert(chat.messages, message, _ => message))
  }

  function WithAssistantMessage(chat: Chat, turn: string, item: string, text: string, complete: bool): Chat {
    var previous := Find(chat.messages, item, None);
    var before := if previous.Some? then previous.value else Message(item, None, false, None, "", false, None);
    var message := before.(user := false,
                           turn := Known(turn, before.turn, chat.turn),
                           text := if complete then text else before.text + text,
                           complete := complete);
    chat.(messages := Upsert(chat.messages, message, _ => message))
  }

  function WithTool(chat: Chat, turn: string, item: string): Chat {
    var message := Message(item, None, false, Known(turn, None, chat.turn), "", false, None);
    chat.(messages := Upsert(chat.messages, message, (m: Message) => m.(user := false, turn := message.turn, text := "")))
  }

  function WithToolOutput(chat: Chat, turn: string, item: string): Chat {
    var previous := Find(chat.messages, item, None);
    var before := if previous.Some? then previous.value else Message(item, None, false, None, "", false, None);
    var message := before.(user := false, turn := Known(turn, None, chat.turn), text := "");
    chat.(messages := Upsert(chat.messages, message, _ => message))
  }

  function Completed(chat: Chat, id: string, startedAt: Option<int>, status: string, message: Option<string>): Chat {
    var started :=
      if startedAt.Some? then startedAt else if id in chat.turns then chat.turns[id].startedAt else None;
    chat.(turn := if chat.turn == Some(id) then None else chat.turn,
          turns := chat.turns[id := TurnState(status, started)],
          warning := if status != "failed" then chat.warning
                     else if message.Some? then message else Some("Task failed."))
  }

  function Reduce(chat: Chat, event: Event): Chat {
    if TurnOf(event).Some? && Discarded(chat, TurnOf(event).value) then chat
    else
      match event
      case UserMessage(turn, item, clientId, text) => WithUserMessage(chat, turn, item, clientId, text)
      case AssistantMessage(turn, item, text, complete) => WithAssistantMessage(chat, turn, item, text, complete)
      case ToolChanged(turn, item) => WithTool(chat, turn, item)
      case ToolOutput(turn, item) => WithToolOutput(chat, turn, item)
      case TurnStarted(id, startedAt) =>
        chat.(turn := Some(id), warning := None, plan := None, turns := chat.turns[id := TurnState("inProgress", startedAt)])
      case TurnCompleted(id, startedAt, status, message) => Completed(chat, id, startedAt, status, message)
      case PlanChanged(plan) => chat.(plan := Some(plan))
      case Requested(request) => chat.(questions := Filter(chat.questions, q => q != request) + [request])
      case Unsupported(kind) => chat.(warning := Some("Unsupported interaction: " + kind))
      case Resolved(request) => chat.(questions := Filter(chat.questions, q => q != request))
      case Warned(warning) => chat.(warning := Some(warning))
      case Closed(reason) => chat.(closed := true, turn := None, questions := [], warning := reason)
      case Other => chat
  }

  function ReduceAll(chat: Chat, events: seq<Event>): Chat
    decreases |events|
  {
    if events == [] then chat else ReduceAll(Reduce(chat, events[0]), events[1..])
  }

  // ----- Snapshots -----

  datatype CurrentTurn = CurrentTurn(id: string, state: TurnState)

  datatype Snapshot = Snapshot(
    current: Option<CurrentTurn>, plan: Option<Plan>, turn: Option<string>, pending: seq<Event>, closed: bool)

  function ApplySnapshot(chat: Chat, snapshot: Snapshot): Chat {
    var base := chat.(
      plan := if snapshot.plan.Some? && snapshot.plan.value.turn !in chat.discarded then snapshot.plan else None,
      turn := if snapshot.turn.Some? && snapshot.turn.value != "" && snapshot.turn.value !in chat.discarded
              then snapshot.turn else None,
      turns := if snapshot.current.Some? && snapshot.current.value.id !in chat.discarded
               then chat.turns[snapshot.current.value.id := snapshot.current.value.state] else chat.turns,
      closed := snapshot.closed,
      questions := []);
    ReduceAll(base, snapshot.pending)
  }

  // ----- History -----

  /** A page does not turn a finished turn back into a running one. */
  function PageTurns(known: map<string, TurnState>, turns: seq<Turn>): map<string, TurnState> {
    if turns == [] then map[]
    else
      var n := |turns| - 1;
      var t := turns[n];
      PageTurns(known, turns[..n])[t.id :=
        if t.state.status == "inProgress" && t.id in known && known[t.id].status != "inProgress" then known[t.id]
        else t.state]
  }

  function MergePage(chat: Chat, turns: seq<Turn>, older: bool, collate: Collation): Chat {
    chat.(messages := Merged(chat.messages, PageItems(turns, collate), older, collate),
          turns := chat.turns + PageTurns(chat.turns, turns))
  }

  function Distinct(s: seq<string>): (r: seq<string>)
    ensures forall x :: x in r <==> x in s
  {
    if s == [] then []
    else
      var n := |s| - 1;
      assert s == s[..n] + [s[n]];
      if s[n] in s[..n] then Distinct(s[..n]) else Distinct(s[..n]) + [s[n]]
  }

  function ReplaceHistory(chat: Chat, turns: seq<Turn>, removed: seq<string>, collate: Collation): Chat {
    MergePage(
      chat.(messages := [], turn := None, turns := map[], plan := None, questions := [], warning := None,
            discarded := Distinct(chat.discarded + removed)),
      turns, false, collate)
  }

  // ----- Runs -----

  datatype Change =
    | Received(event: Event)
    | Resynced(snapshot: Snapshot)
    | Paged(turns: seq<Turn>, older: bool)
    | Reverted(turns: seq<Turn>, removed: seq<string>)

  function Apply(chat: Chat, change: Change, collate: Collation): Chat {
    match change
    case Received(event) => Reduce(chat, event)
    case Resynced(snapshot) => ApplySnapshot(chat, snapshot)
    case Paged(turns, older) => MergePage(chat, turns, older, collate)
    case Reverted(turns, removed) => ReplaceHistory(chat, turns, removed, collate)
  }

  function Run(chat: Chat, changes: seq<Change>, collate: Collation): Chat
    decreases |changes|
  {
    if changes == [] then chat else Run(Apply(chat, changes[0], collate), changes[1..], collate)
  }
}
