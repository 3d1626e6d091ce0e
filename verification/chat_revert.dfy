/** A turn that was discarded by a revert stays away. */
module ChatRevert {
  import opened Wrappers
  import opened StableSorting
  import opened ChatHistory
  import opened ChatMerge
  import opened ChatReducer

  /** The turn is visible somewhere in the chat. */
  predicate Shows(chat: Chat, turn: string) {
    || chat.turn == Some(turn)
    || (chat.plan.Some? && chat.plan.value.turn == turn)
    || turn in chat.turns
    || exists m :: m in chat.messages && m.turn == Some(turn)
  }

  ghost predicate Clean(chat: Chat) {
    forall turn :: Discarded(chat, turn) ==> !Shows(chat, turn)
  }

  // ----- Events -----

  /** A turn that no message has, and the new message has not either, is in no message. */
  lemma UpsertTurns(messages: seq<Message>, message: Message, overlay: Message -> Message, turn: string)
    requires forall m :: m in messages ==> m.turn != Some(turn)
    requires message.turn != Some(turn) && forall m :: overlay(m).turn == message.turn
    ensures forall m :: m in Upsert(messages, message, overlay) ==> m.turn != Some(turn)
  {}

  lemma ReduceHides(chat: Chat, event: Event, turn: string)
    requires Discarded(chat, turn) && !Shows(chat, turn)
    ensures !Shows(Reduce(chat, event), turn)
  {
    match event
    case UserMessage(t, item, clientId, text) =>
      if !Discarded(chat, t) {
        var previous := Find(chat.messages, item, clientId);
        var message := Message(item, clientId, true, Some(t), text,
                               previous.Some? && previous.value.complete, SentAt(chat, t, previous));
        UpsertTurns(chat.messages, message, _ => message, turn);
      }
    case AssistantMessage(t, item, text, complete) =>
      if !Discarded(chat, t) {
        var previous := Find(chat.messages, item, None);
        var before := if previous.Some? then previous.value else Message(item, None, false, None, "", false, None);
        var message := before.(user := false,
                               turn := Known(t, before.turn, chat.turn),
                               text := if complete then text else before.text + text,
                               complete := complete);
        UpsertTurns(chat.messages, message, _ => message, turn);
      }
    case ToolChanged(t, item) =>
      if !Discarded(chat, t) {
        var message := Message(item, None, false, Known(t, None, chat.turn), "", false, None);
        UpsertTurns(chat.messages, message, (m: Message) => m.(user := false, turn := message.turn, text := ""), turn);
      }
    case ToolOutput(t, item) =>
      if !Discarded(chat, t) {
        var previous := Find(chat.messages, item, None);
        var before := if previous.Some? then previous.value else Message(item, None, false, None, "", false, None);
        var message := before.(user := false, turn := Known(t, None, chat.turn), text := "");
        UpsertTurns(chat.messages, message, _ => message, turn);
      }
    case _ =>
  }

  lemma {:induction false} ReduceAllHides(chat: Chat, events: seq<Event>, turn: string)
    requires Discarded(chat, turn) && !Shows(chat, turn)
    ensures !Shows(ReduceAll(chat, events), turn)
    ensures ReduceAll(chat, events).discarded == chat.discarded
    decreases |events|
  {
    if events != [] {
      ReduceHides(chat, events[0], turn);
      ReduceAllHides(Reduce(chat, events[0]), events[1..], turn);
    }
  }

  lemma {:induction false} ReduceAllKeepsDiscarded(chat: Chat, events: seq<Event>)
    ensures ReduceAll(chat, events).discarded == chat.discarded
    decreases |events|
  {
    if events != [] {
      ReduceAllKeepsDiscarded(Reduce(chat, events[0]), events[1..]);
    }
  }

  // ----- Snapshots -----

  /** A stale snapshot cannot bring a discarded turn back, nor can its pending events. */
  lemma SnapshotHides(chat: Chat, snapshot: Snapshot, turn: string)
    requires Discarded(chat, turn) && !Shows(chat, turn)
    ensures !Shows(ApplySnapshot(chat, snapshot), turn)
  {
    var base := ApplySnapshot(chat, snapshot.(pending := []));
    ReduceAllHides(base, snapshot.pending, turn);
  }

  // ----- History -----

  /** What holds of the turns of all old messages and of all page items holds of
      all turns in the merged list. */
  lemma MergedTurns(messages: seq<Message>, items: seq<Message>, older: bool, collate: Collation, p: Option<string> -> bool)
    requires forall m :: m in messages ==> p(m.turn)
    requires forall m :: m in items ==> p(m.turn)
    ensures forall m :: m in Merged(messages, items, older, collate) ==> p(m.turn)
  {
    var history := Blended(messages, items);
    var list := Replaced(messages, history);
    forall m | m in history ensures p(m.turn) {
      var k :| 0 <= k < |history| && history[k] == m;
      assert items[k] in items;
      LookupMember(messages, items[k]);
    }
    forall m | m in list ensures p(m.turn) {
      var i :| 0 <= i < |list| && list[i] == m;
      assert messages[i] in messages;
      LookupMember(history, messages[i]);
    }
    forall m | m in InsertFrom(list, history, 0, older) ensures p(m.turn) {
      InsertFromMember(list, history, 0, older, m);
    }
    SortMembers(InsertFrom(list, history, 0, older), TurnOrder(collate));
  }

  lemma {:induction false} ByNameMembers(messages: seq<Message>)
    ensures forall name :: name in ByName(messages) ==> ByName(messages)[name] in messages
  {
    if messages != [] {
      ByNameMembers(messages[..|messages| - 1]);
    }
  }

  lemma LookupMember(messages: seq<Message>, m: Message)
    ensures Lookup(ByName(messages), m).Some? ==> Lookup(ByName(messages), m).value in messages
  {
    ByNameMembers(messages);
  }

  lemma InsertOneMember(list: seq<Message>, history: seq<Message>, k: nat, older: bool, m: Message)
    requires k < |history| && m in InsertOne(list, history, k, older)
    ensures m in list || m == history[k]
  {}

  lemma {:induction false} InsertFromMember(list: seq<Message>, history: seq<Message>, k: nat, older: bool, m: Message)
    requires k <= |history| && m in InsertFrom(list, history, k, older)
    ensures m in list || m in history
    decreases |history| - k
  {
    if k < |history| {
      InsertFromMember(InsertOne(list, history, k, older), history, k + 1, older, m);
      if m !in history {
        InsertOneMember(list, history, k, older, m);
      }
    }
  }

  lemma {:induction false} FlattenTurns(turns: seq<Turn>)
    ensures forall m :: m in Flatten(turns) ==> exists t :: t in turns && m.turn == Some(t.id)
  {
    if turns != [] {
      FlattenTurns(turns[1..]);
      ShownTurn(turns[0], 0, true);
      forall m | m in Flatten(turns) ensures exists t :: t in turns && m.turn == Some(t.id) {
        if m in Shown(turns[0]) {
          assert turns[0] in turns;
        } else {
          var t :| t in turns[1..] && m.turn == Some(t.id);
          assert t in turns;
        }
      }
    }
  }

  lemma {:induction false} PageTurnsKeys(known: map<string, TurnState>, turns: seq<Turn>, id: string)
    ensures id in PageTurns(known, turns) <==> exists t :: t in turns && t.id == id
  {
    if turns != [] {
      var n := |turns| - 1;
      PageTurnsKeys(known, turns[..n], id);
      assert turns == turns[..n] + [turns[n]];
    }
  }

  predicate OnPage(turns: seq<Turn>, turn: string) {
    exists t :: t in turns && t.id == turn
  }

  /** Merging a page shows a hidden turn exactly if the turn is on the page. */
  lemma MergeShows(chat: Chat, turns: seq<Turn>, older: bool, collate: Collation, turn: string)
    requires !Shows(chat, turn)
    ensures Shows(MergePage(chat, turns, older, collate), turn) <==> OnPage(turns, turn)
  {
    PageTurnsKeys(chat.turns, turns, turn);
    if !OnPage(turns, turn) {
      var le := (a: Turn, b: Turn) => collate(a.id, b.id);
      SortMembers(turns, le);
      FlattenTurns(Sort(turns, le));
      MergedTurns(chat.messages, PageItems(turns, collate), older, collate, t => t != Some(turn));
    }
  }

  /** The page is free of everything the chat has discarded. */
  ghost predicate PageFree(chat: Chat, turns: seq<Turn>) {
    forall turn :: Discarded(chat, turn) ==> !OnPage(turns, turn)
  }

  lemma MergeCleanIff(chat: Chat, turns: seq<Turn>, older: bool, collate: Collation)
    requires Clean(chat)
    ensures Clean(MergePage(chat, turns, older, collate)) <==> PageFree(chat, turns)
  {
    forall turn | Discarded(chat, turn)
      ensures Shows(MergePage(chat, turns, older, collate), turn) <==> OnPage(turns, turn)
    {
      MergeShows(chat, turns, older, collate, turn);
    }
  }

  /** A revert cleans any chat, exactly if the new page has none of the turns that
      were discarded before or now. */
  lemma ReplaceCleanIff(chat: Chat, turns: seq<Turn>, removed: seq<string>, collate: Collation)
    ensures Clean(ReplaceHistory(chat, turns, removed, collate)) <==>
              forall turn :: turn != "" && (turn in chat.discarded || turn in removed) ==> !OnPage(turns, turn)
  {
    var empty := chat.(messages := [], turn := None, turns := map[], plan := None, questions := [], warning := None,
                       discarded := Distinct(chat.discarded + removed));
    MergeCleanIff(empty, turns, false, collate);
    forall turn ensures Discarded(empty, turn) <==> turn != "" && (turn in chat.discarded || turn in removed) {}
  }

  // ----- Runs -----

  /** Every page that arrives is free of the turns discarded by then. */
  ghost predicate PagesFree(chat: Chat, changes: seq<Change>, collate: Collation)
    decreases |changes|
  {
    changes != [] ==>
      && (match changes[0]
          case Paged(turns, _) => PageFree(chat, turns)
          case Reverted(turns, removed) => PageFree(chat.(discarded := Distinct(chat.discarded + removed)), turns)
          case _ => true)
      && PagesFree(Apply(chat, changes[0], collate), changes[1..], collate)
  }

  lemma ApplyKeepsClean(chat: Chat, change: Change, collate: Collation)
    requires Clean(chat) && PagesFree(chat, [change], collate)
    ensures Clean(Apply(chat, change, collate))
    ensures forall turn :: turn in chat.discarded ==> turn in Apply(chat, change, collate).discarded
  {
    match change
    case Received(event) =>
      forall turn | Discarded(chat, turn) ensures !Shows(Reduce(chat, event), turn) {
        ReduceHides(chat, event, turn);
      }
    case Resynced(snapshot) =>
      var base := ApplySnapshot(chat, snapshot.(pending := []));
      ReduceAllKeepsDiscarded(base, snapshot.pending);
      forall turn | Discarded(chat, turn) ensures !Shows(ApplySnapshot(chat, snapshot), turn) {
        SnapshotHides(chat, snapshot, turn);
      }
    case Paged(turns, older) =>
      MergeCleanIff(chat, turns, older, collate);
    case Reverted(turns, removed) =>
      ReplaceCleanIff(chat, turns, removed, collate);
      var marked := chat.(discarded := Distinct(chat.discarded + removed));
      forall turn ensures Discarded(marked, turn) <==> turn != "" && (turn in chat.discarded || turn in removed) {}
  }

  lemma {:induction false} RunKeepsClean(chat: Chat, changes: seq<Change>, collate: Collation)
    requires Clean(chat) && PagesFree(chat, changes, collate)
    ensures Clean(Run(chat, changes, collate))
    ensures forall turn :: turn in chat.discarded ==> turn in Run(chat, changes, collate).discarded
    decreases |changes|
  {
    if changes != [] {
      assert PagesFree(Apply(chat, changes[0], collate), [], collate);
      assert [changes[0]][1..] == [];
      ApplyKeepsClean(chat, changes[0], collate);
      RunKeepsClean(Apply(chat, changes[0], collate), changes[1..], collate);
    }
  }

  /** Once discarded, a turn is never again the current turn, the plan's turn, a
      known turn or the turn of a message, whatever events, snapshots and pages
      free of discarded turns follow. */
  lemma DiscardedNeverReturns(chat: Chat, changes: seq<Change>, collate: Collation, turn: string)
    requires Clean(chat) && Discarded(chat, turn) && PagesFree(chat, changes, collate)
    ensures Discarded(Run(chat, changes, collate), turn) && !Shows(Run(chat, changes, collate), turn)
  {
    RunKeepsClean(chat, changes, collate);
  }

  /** A chat that starts empty never shows a turn it has discarded. */
  lemma NewChatHidesDiscarded(changes: seq<Change>, collate: Collation, turn: string)
    requires PagesFree(INITIAL, changes, collate)
    ensures var chat := Run(INITIAL, changes, collate); Discarded(chat, turn) ==> !Shows(chat, turn)
  {
    RunKeepsClean(INITIAL, changes, collate);
  }
}
