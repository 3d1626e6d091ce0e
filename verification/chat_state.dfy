/** What the chat shows after a sequence of events, told from the events. */
module ChatState {
  import opened Wrappers
  import opened StableSorting
  import opened ChatHistory
  import opened ChatReducer

  // ----- Sequences of events -----

  lemma {:induction false} ReduceAllAppend(chat: Chat, a: seq<Event>, b: seq<Event>)
    ensures ReduceAll(chat, a + b) == ReduceAll(ReduceAll(chat, a), b)
    decreases |a|
  {
    if a == [] {
      assert a + b == b;
    } else {
      assert (a + b)[1..] == a[1..] + b;
      ReduceAllAppend(Reduce(chat, a[0]), a[1..], b);
    }
  }

  lemma ReduceAllLast(chat: Chat, events: seq<Event>)
    requires events != []
    ensures ReduceAll(chat, events) == Reduce(ReduceAll(chat, events[..|events| - 1]), events[|events| - 1])
  {
    var n := |events| - 1;
    assert events == events[..n] + [events[n]];
    ReduceAllAppend(chat, events[..n], [events[n]]);
    assert [events[n]][1..] == [];
    assert ReduceAll(ReduceAll(chat, events[..n]), [events[n]]) == ReduceAll(Reduce(ReduceAll(chat, events[..n]), events[n]), []);
  }

  lemma {:induction false} DiscardedStay(chat: Chat, events: seq<Event>)
    ensures ReduceAll(chat, events).discarded == chat.discarded
    decreases |events|
  {
    if events != [] {
      DiscardedStay(Reduce(chat, events[0]), events[1..]);
    }
  }

  // ----- The current turn -----

  predicate Starts(chat: Chat, event: Event, id: string) {
    event.TurnStarted? && event.id == id && !Discarded(chat, id)
  }

  /** After this the turn is not the current one, whatever was. */
  predicate Ends(chat: Chat, event: Event, id: string) {
    || (event.TurnStarted? && event.id != id && !Discarded(chat, event.id))
    || (event.TurnCompleted? && event.id == id && !Discarded(chat, id))
    || event.Closed?
  }

  predicate EndedAfter(chat: Chat, events: seq<Event>, id: string, from: nat) {
    exists j :: from <= j < |events| && Ends(chat, events[j], id)
  }

  /** The turn was started, and nothing has ended it since. */
  predicate Runs(chat: Chat, events: seq<Event>, id: string) {
    || (exists i :: 0 <= i < |events| && Starts(chat, events[i], id) && !EndedAfter(chat, events, id, i + 1))
    || (chat.turn == Some(id) && !EndedAfter(chat, events, id, 0))
  }

  lemma ReduceTurn(chat: Chat, event: Event, id: string)
    ensures Reduce(chat, event).turn == Some(id) <==>
              Starts(chat, event, id) || (chat.turn == Some(id) && !Ends(chat, event, id))
  {}

  lemma EndedNext(chat: Chat, events: seq<Event>, e: Event, id: string, from: nat)
    requires from <= |events|
    ensures EndedAfter(chat, events + [e], id, from) <==> EndedAfter(chat, events, id, from) || Ends(chat, e, id)
  {
    var all := events + [e];
    if EndedAfter(chat, events, id, from) {
      var j :| from <= j < |events| && Ends(chat, events[j], id);
      assert all[j] == events[j];
    }
    if Ends(chat, e, id) {
      assert all[|events|] == e;
    }
  }

  lemma RunsNext(chat: Chat, events: seq<Event>, e: Event, id: string)
    ensures Runs(chat, events + [e], id) <==> Starts(chat, e, id) || (Runs(chat, events, id) && !Ends(chat, e, id))
  {
    var all := events + [e];
    EndedNext(chat, events, e, id, 0);
    forall i | 0 <= i < |events|
      ensures EndedAfter(chat, all, id, i + 1) <==> EndedAfter(chat, events, id, i + 1) || Ends(chat, e, id)
      ensures all[i] == events[i]
    {
      EndedNext(chat, events, e, id, i + 1);
    }
    assert all[|events|] == e && !EndedAfter(chat, all, id, |events| + 1);
    if Runs(chat, events, id) && !Ends(chat, e, id) {
      RunsOn(chat, events, e, id);
    }
    if Runs(chat, all, id) && !Starts(chat, e, id) {
      RanBefore(chat, events, e, id);
    }
  }

  lemma RunsOn(chat: Chat, events: seq<Event>, e: Event, id: string)
    requires Runs(chat, events, id) && !Ends(chat, e, id)
    ensures Runs(chat, events + [e], id)
  {
    var all := events + [e];
    EndedNext(chat, events, e, id, 0);
    if i :| 0 <= i < |events| && Starts(chat, events[i], id) && !EndedAfter(chat, events, id, i + 1) {
      EndedNext(chat, events, e, id, i + 1);
      assert all[i] == events[i];
    }
  }

  lemma RanBefore(chat: Chat, events: seq<Event>, e: Event, id: string)
    requires Runs(chat, events + [e], id) && !Starts(chat, e, id)
    ensures Runs(chat, events, id) && !Ends(chat, e, id)
  {
    var all := events + [e];
    EndedNext(chat, events, e, id, 0);
    if i :| 0 <= i < |all| && Starts(chat, all[i], id) && !EndedAfter(chat, all, id, i + 1) {
      assert i < |events| && all[i] == events[i];
      EndedNext(chat, events, e, id, i + 1);
    }
  }

  /** A turn is the current one exactly if some event starts it, or it was before, and
      since then no other turn is started, it is not completed and the chat not closed. */
  lemma {:induction false} CurrentTurnIff(chat: Chat, events: seq<Event>, id: string)
    ensures ReduceAll(chat, events).turn == Some(id) <==> Runs(chat, events, id)
  {
    if events != [] {
      var n := |events| - 1;
      CurrentTurnIff(chat, events[..n], id);
      DiscardedStay(chat, events[..n]);
      ReduceAllLast(chat, events);
      var before := ReduceAll(chat, events[..n]);
      ReduceTurn(before, events[n], id);
      RunsNext(chat, events[..n], events[n], id);
      assert events == events[..n] + [events[n]];
    }
  }

  // ----- The last event decides -----

  /** The last of the events for which `p` holds. */
  predicate LastOf(events: seq<Event>, p: Event -> bool, i: nat) {
    i < |events| && p(events[i]) && forall j :: i < j < |events| ==> !p(events[j])
  }

  predicate NoneOf(events: seq<Event>, p: Event -> bool) {
    forall j :: 0 <= j < |events| ==> !p(events[j])
  }

  /** If only events for which `p` holds change what `show` shows, the last of them
      decides it. */
  lemma {:induction false} Untouched<T>(chat: Chat, events: seq<Event>, p: Event -> bool, show: Chat -> T)
    requires forall c: Chat, e :: c.discarded == chat.discarded && !p(e) ==> show(Reduce(c, e)) == show(c)
    requires NoneOf(events, p)
    ensures show(ReduceAll(chat, events)) == show(chat)
    decreases |events|
  {
    if events != [] {
      assert !p(events[0]);
      Untouched(Reduce(chat, events[0]), events[1..], p, show);
    }
  }

  lemma LastDecides<T>(chat: Chat, events: seq<Event>, p: Event -> bool, show: Chat -> T, i: nat)
    requires forall c: Chat, e :: c.discarded == chat.discarded && !p(e) ==> show(Reduce(c, e)) == show(c)
    requires LastOf(events, p, i)
    ensures var before := ReduceAll(chat, events[..i]);
            before.discarded == chat.discarded && show(ReduceAll(chat, events)) == show(Reduce(before, events[i]))
  {
    var upto, rest := events[..i + 1], events[i + 1..];
    assert events == upto + rest && upto[..i] == events[..i];
    ReduceAllAppend(chat, upto, rest);
    ReduceAllLast(chat, upto);
    DiscardedStay(chat, upto);
    DiscardedStay(chat, events[..i]);
    Untouched(ReduceAll(chat, upto), rest, p, show);
  }

  // ----- Known turns -----

  predicate Settles(chat: Chat, event: Event, id: string) {
    (event.TurnStarted? || event.TurnCompleted?) && event.id == id && !Discarded(chat, id)
  }

  function StatusIn(event: Event): string
    requires event.TurnStarted? || event.TurnCompleted?
  {
    if event.TurnStarted? then "inProgress" else event.status
  }

  lemma TurnKept(chat: Chat, c: Chat, e: Event, id: string)
    requires c.discarded == chat.discarded && !Settles(chat, e, id)
    ensures id in Reduce(c, e).turns <==> id in c.turns
    ensures id in c.turns ==> Reduce(c, e).turns[id] == c.turns[id]
  {}

  lemma TurnSet(chat: Chat, c: Chat, e: Event, id: string)
    requires c.discarded == chat.discarded && Settles(chat, e, id)
    ensures id in Reduce(c, e).turns && Reduce(c, e).turns[id].status == StatusIn(e)
  {}

  /** The status of a turn is that of its last start or completion. */
  lemma TurnStatus(chat: Chat, events: seq<Event>, id: string)
    ensures forall i: nat :: LastOf(events, e => Settles(chat, e, id), i) ==>
              var turns := ReduceAll(chat, events).turns; id in turns && turns[id].status == StatusIn(events[i])
    ensures NoneOf(events, e => Settles(chat, e, id)) ==>
              var turns := ReduceAll(chat, events).turns;
              (id in turns <==> id in chat.turns) && (id in turns ==> turns[id] == chat.turns[id])
  {
    var p := e => Settles(chat, e, id);
    var show := (c: Chat) => if id in c.turns then Some(c.turns[id]) else None;
    forall c: Chat, e | c.discarded == chat.discarded && !p(e) ensures show(Reduce(c, e)) == show(c) {
      TurnKept(chat, c, e, id);
    }
    if NoneOf(events, p) {
      Untouched(chat, events, p, show);
    }
    forall i: nat | LastOf(events, p, i)
      ensures id in ReduceAll(chat, events).turns && ReduceAll(chat, events).turns[id].status == StatusIn(events[i])
    {
      LastDecides(chat, events, p, show, i);
      TurnSet(chat, ReduceAll(chat, events[..i]), events[i], id);
    }
  }

  /** The event says when the turn started; a completion may leave that open. */
  predicate Dates(chat: Chat, event: Event, id: string) {
    Settles(chat, event, id) && (event.TurnStarted? || event.startedAt.Some?)
  }

  /** So is its start, except that a completion without one leaves the earlier one. */
  lemma TurnStart(chat: Chat, events: seq<Event>, id: string, i: nat)
    requires LastOf(events, e => Dates(chat, e, id), i)
    ensures var turns := ReduceAll(chat, events).turns; id in turns && turns[id].startedAt == events[i].startedAt
  {
    var show := (c: Chat) => if id in c.turns then c.turns[id].startedAt else None;
    forall c: Chat, e | c.discarded == chat.discarded && !Dates(chat, e, id) ensures show(Reduce(c, e)) == show(c) {
      if !Settles(chat, e, id) {
        TurnKept(chat, c, e, id);
      }
    }
    LastDecides(chat, events, e => Dates(chat, e, id), show, i);
    TurnStatus(chat, events, id);
    TurnStays(chat, events, id, i);
  }

  lemma TurnStays(chat: Chat, events: seq<Event>, id: string, i: nat)
    requires i < |events| && Settles(chat, events[i], id)
    ensures id in ReduceAll(chat, events).turns
  {
    var upto, rest := events[..i + 1], events[i + 1..];
    assert events == upto + rest && upto[..i] == events[..i];
    ReduceAllAppend(chat, upto, rest);
    ReduceAllLast(chat, upto);
    DiscardedStay(chat, events[..i]);
    TurnsGrow(ReduceAll(chat, upto), rest, id);
  }

  lemma {:induction false} TurnsGrow(chat: Chat, events: seq<Event>, id: string)
    requires id in chat.turns
    ensures id in ReduceAll(chat, events).turns
    decreases |events|
  {
    if events != [] {
      TurnsGrow(Reduce(chat, events[0]), events[1..], id);
    }
  }

  // ----- Plan, warning, closing -----

  predicate Plans(chat: Chat, event: Event) {
    (event.PlanChanged? && !Discarded(chat, event.plan.turn)) || (event.TurnStarted? && !Discarded(chat, event.id))
  }

  lemma PlanKept(chat: Chat, c: Chat, e: Event)
    requires c.discarded == chat.discarded && !Plans(chat, e)
    ensures Reduce(c, e).plan == c.plan
  {}

  lemma PlanSet(chat: Chat, c: Chat, e: Event)
    requires c.discarded == chat.discarded && Plans(chat, e)
    ensures Reduce(c, e).plan == if e.PlanChanged? then Some(e.plan) else None
  {}

  /** The plan is the last one announced unless a turn was started since. */
  lemma LastPlan(chat: Chat, events: seq<Event>)
    ensures forall i: nat :: LastOf(events, e => Plans(chat, e), i) ==>
              ReduceAll(chat, events).plan == if events[i].PlanChanged? then Some(events[i].plan) else None
    ensures NoneOf(events, e => Plans(chat, e)) ==> ReduceAll(chat, events).plan == chat.plan
  {
    var p, show := (e => Plans(chat, e)), (c: Chat) => c.plan;
    forall c: Chat, e | c.discarded == chat.discarded && !p(e) ensures show(Reduce(c, e)) == show(c) {
      PlanKept(chat, c, e);
    }
    if NoneOf(events, p) {
      Untouched(chat, events, p, show);
    }
    forall i: nat | LastOf(events, p, i)
      ensures ReduceAll(chat, events).plan == if events[i].PlanChanged? then Some(events[i].plan) else None
    {
      LastDecides(chat, events, p, show, i);
      PlanSet(chat, ReduceAll(chat, events[..i]), events[i]);
    }
  }

  predicate Warns(chat: Chat, event: Event) {
    || event.Warned? || event.Unsupported? || event.Closed?
    || (event.TurnStarted? && !Discarded(chat, event.id))
    || (event.TurnCompleted? && !Discarded(chat, event.id) && event.status == "failed")
  }

  function WarningIn(event: Event): Option<string> {
    match event
    case Warned(warning) => Some(warning)
    case Unsupported(kind) => Some("Unsupported interaction: " + kind)
    case Closed(reason) => reason
    case TurnCompleted(_, _, _, Some(message)) => Some(message)
    case TurnCompleted(_, _, _, None) => Some("Task failed.")
    case _ => None
  }

  lemma WarningKept(chat: Chat, c: Chat, e: Event)
    requires c.discarded == chat.discarded && !Warns(chat, e)
    ensures Reduce(c, e).warning == c.warning
  {}

  lemma WarningSet(chat: Chat, c: Chat, e: Event)
    requires c.discarded == chat.discarded && Warns(chat, e)
    ensures Reduce(c, e).warning == WarningIn(e)
  {}

  /** The warning is the last one, until a turn starts. */
  lemma LastWarning(chat: Chat, events: seq<Event>)
    ensures forall i: nat :: LastOf(events, e => Warns(chat, e), i) ==> ReduceAll(chat, events).warning == WarningIn(events[i])
    ensures NoneOf(events, e => Warns(chat, e)) ==> ReduceAll(chat, events).warning == chat.warning
  {
    var p, show := (e => Warns(chat, e)), (c: Chat) => c.warning;
    forall c: Chat, e | c.discarded == chat.discarded && !p(e) ensures show(Reduce(c, e)) == show(c) {
      WarningKept(chat, c, e);
    }
    if NoneOf(events, p) {
      Untouched(chat, events, p, show);
    }
    forall i: nat | LastOf(events, p, i) ensures ReduceAll(chat, events).warning == WarningIn(events[i]) {
      LastDecides(chat, events, p, show, i);
      WarningSet(chat, ReduceAll(chat, events[..i]), events[i]);
    }
  }

  lemma ClosedIff(chat: Chat, events: seq<Event>)
    ensures ReduceAll(chat, events).closed <==> chat.closed || exists i :: 0 <= i < |events| && events[i].Closed?
  {
    var p, show := ((e: Event) => e.Closed?), (c: Chat) => c.closed;
    if NoneOf(events, p) {
      Untouched(chat, events, p, show);
    } else {
      var i := FindLast(events, p);
      LastDecides(chat, events, p, show, i);
    }
  }

  lemma {:induction false} FindLast(events: seq<Event>, p: Event -> bool) returns (i: nat)
    requires !NoneOf(events, p)
    ensures LastOf(events, p, i)
  {
    var n := |events| - 1;
    if p(events[n]) {
      i := n;
    } else {
      i := FindLast(events[..n], p);
      assert events[..n][i] == events[i];
    }
  }

  // ----- Questions -----

  predicate Asks(event: Event, request: string) {
    || (event.Requested? && event.request == request)
    || (event.Resolved? && event.request == request)
    || event.Closed?
  }

  /** A request is open exactly if it was made and neither resolved nor closed since. */
  lemma OpenQuestion(chat: Chat, events: seq<Event>, request: string)
    ensures forall i: nat :: LastOf(events, e => Asks(e, request), i) ==>
              (request in ReduceAll(chat, events).questions <==> events[i].Requested?)
    ensures NoneOf(events, e => Asks(e, request)) ==>
              (request in ReduceAll(chat, events).questions <==> request in chat.questions)
  {
    var p, show := (e => Asks(e, request)), (c: Chat) => request in c.questions;
    forall c: Chat, e | !p(e) ensures show(Reduce(c, e)) == show(c) {
      QuestionKept(c, e, request);
    }
    if NoneOf(events, p) {
      Untouched(chat, events, p, show);
    }
    forall i: nat | LastOf(events, p, i) ensures request in ReduceAll(chat, events).questions <==> events[i].Requested? {
      LastDecides(chat, events, p, show, i);
      QuestionSet(ReduceAll(chat, events[..i]), events[i], request);
    }
  }

  lemma QuestionKept(chat: Chat, event: Event, request: string)
    requires !Asks(event, request)
    ensures request in Reduce(chat, event).questions <==> request in chat.questions
  {
    if event.Requested? || event.Resolved? {
      FilterMembers(chat.questions, q => q != event.request);
    }
  }

  lemma QuestionSet(chat: Chat, event: Event, request: string)
    requires Asks(event, request)
    ensures request in Reduce(chat, event).questions <==> event.Requested?
  {
    FilterMembers(chat.questions, q => q != request);
  }

  predicate Once(questions: seq<string>) {
    forall i, j :: 0 <= i < j < |questions| ==> questions[i] != questions[j]
  }

  lemma {:induction false} FilterOnce(questions: seq<string>, p: string -> bool)
    requires Once(questions)
    ensures Once(Filter(questions, p))
  {
    if questions != [] {
      var rest := questions[1..];
      assert forall i :: 0 <= i < |rest| ==> rest[i] == questions[i + 1];
      FilterOnce(rest, p);
      FilterMembers(rest, p);
      assert forall q :: q in Filter(rest, p) ==> q != questions[0];
    }
  }

  lemma ReduceOnce(chat: Chat, event: Event)
    requires Once(chat.questions)
    ensures Once(Reduce(chat, event).questions)
  {
    match event
    case Requested(request) =>
      var p := q => q != request;
      FilterOnce(chat.questions, p);
      FilterMembers(chat.questions, p);
      assert Reduce(chat, event).questions == Filter(chat.questions, p) + [request];
      assert forall i :: 0 <= i < |Filter(chat.questions, p)| ==> Filter(chat.questions, p)[i] in Filter(chat.questions, p);
    case Resolved(request) => FilterOnce(chat.questions, q => q != request);
    case _ =>
  }

  /** No request is shown twice, however often it is made. */
  lemma {:induction false} QuestionsOnce(chat: Chat, events: seq<Event>)
    requires Once(chat.questions)
    ensures Once(ReduceAll(chat, events).questions)
    decreases |events|
  {
    if events != [] {
      ReduceOnce(chat, events[0]);
      QuestionsOnce(Reduce(chat, events[0]), events[1..]);
    }
  }

  // ----- Messages -----

  /** The message goes by that identifier or by that client name. */
  predicate Named(m: Message, item: string, clientId: Option<string>) {
    m.id == item || (clientId.Some? && clientId.value != "" && m.clientId == clientId)
  }

  /** The new message stands where messages under one of its names stood, or else at
      the end; nothing else has changed. */
  predicate Placed(before: seq<Message>, after: seq<Message>, m: Message) {
    if exists i :: 0 <= i < |before| && Named(before[i], m.id, m.clientId) then
      |after| == |before| && forall i :: 0 <= i < |before| ==> after[i] == if Named(before[i], m.id, m.clientId) then m else before[i]
    else after == before + [m]
  }

  /** What was there first under the item's identifier or the client name, if anything. */
  predicate Earlier(messages: seq<Message>, item: string, clientId: Option<string>, previous: Option<Message>) {
    match previous
    case None => forall i :: 0 <= i < |messages| ==> !Named(messages[i], item, clientId)
    case Some(m) =>
      exists i :: 0 <= i < |messages| && messages[i] == m && Named(m, item, clientId) &&
                  forall j :: 0 <= j < i ==> !Named(messages[j], item, clientId)
  }

  lemma EarlierBehind(first: Message, rest: seq<Message>, item: string, clientId: Option<string>, previous: Option<Message>)
    requires Earlier(rest, item, clientId, previous) && !Named(first, item, clientId)
    ensures Earlier([first] + rest, item, clientId, previous)
  {
    var all := [first] + rest;
    assert forall j :: 0 < j < |all| ==> all[j] == rest[j - 1];
    if previous.Some? {
      var i :| 0 <= i < |rest| && rest[i] == previous.value && forall j :: 0 <= j < i ==> !Named(rest[j], item, clientId);
      assert all[i + 1] == previous.value;
    }
  }

  lemma {:induction false} FindEarlier(messages: seq<Message>, item: string, clientId: Option<string>)
    ensures Earlier(messages, item, clientId, Find(messages, item, clientId))
  {
    if messages != [] && !Matches(messages[0], item, clientId) {
      FindEarlier(messages[1..], item, clientId);
      EarlierBehind(messages[0], messages[1..], item, clientId, Find(messages[1..], item, clientId));
      assert messages == [messages[0]] + messages[1..];
    }
  }

  lemma UpsertPlaces(messages: seq<Message>, m: Message)
    ensures Placed(messages, Upsert(messages, m, _ => m), m)
  {
    assert forall i :: 0 <= i < |messages| ==> (Named(messages[i], m.id, m.clientId) <==> Matches(messages[i], m.id, m.clientId));
  }

  /** When a user message counts as sent, if it does not replace one with a time: with
      the start of its turn, for the first one of the turn. */
  predicate SentWithTurn(chat: Chat, turn: string, sentAt: Option<int>) {
    sentAt ==
      if (exists m :: m in chat.messages && m.turn == Some(turn) && m.user) || turn !in chat.turns then None
      else chat.turns[turn].startedAt
  }

  /** A user message shows its text under both of its names. */
  lemma UserMessageShows(chat: Chat, turn: string, item: string, clientId: Option<string>, text: string)
    returns (previous: Option<Message>, m: Message)
    requires !Discarded(chat, turn)
    ensures Earlier(chat.messages, item, clientId, previous)
    ensures m.id == item && m.clientId == clientId && m.user && m.turn == Some(turn) && m.text == text
    ensures m.complete <==> previous.Some? && previous.value.complete
    ensures if previous.Some? && previous.value.sentAt.Some? then m.sentAt == previous.value.sentAt
            else SentWithTurn(chat, turn, m.sentAt)
    ensures var after := Reduce(chat, UserMessage(turn, item, clientId, text));
            after == chat.(messages := after.messages) && Placed(chat.messages, after.messages, m)
  {
    FindEarlier(chat.messages, item, clientId);
    previous := Find(chat.messages, item, clientId);
    m := Message(item, clientId, true, Some(turn), text, previous.Some? && previous.value.complete, SentAt(chat, turn, previous));
    UpsertPlaces(chat.messages, m);
  }

  /** The first of these that is not empty. */
  predicate Belongs(belongs: Option<string>, turn: string, previous: Option<string>, current: Option<string>) {
    && (turn != "" ==> belongs == Some(turn))
    && (turn == "" && previous.Some? && previous != Some("") ==> belongs == previous)
    && (turn == "" && (previous.None? || previous == Some("")) ==> belongs == if current == Some("") then None else current)
  }

  /** A reply belongs to the turn it names, else to that of the message it continues,
      else to the current one; its text follows that message's or, complete, replaces it. */
  lemma AssistantMessageShows(chat: Chat, turn: string, item: string, text: string, complete: bool)
    returns (previous: Option<Message>, m: Message)
    requires !Discarded(chat, turn)
    ensures Earlier(chat.messages, item, None, previous)
    ensures m.id == item && !m.user && m.complete == complete
    ensures m.text == if complete || previous.None? then text else previous.value.text + text
    ensures m.sentAt == (if previous.Some? then previous.value.sentAt else None)
    ensures m.clientId == (if previous.Some? then previous.value.clientId else None)
    ensures Belongs(m.turn, turn, if previous.Some? then previous.value.turn else None, chat.turn)
    ensures var after := Reduce(chat, AssistantMessage(turn, item, text, complete));
            after == chat.(messages := after.messages) && Placed(chat.messages, after.messages, m)
  {
    FindEarlier(chat.messages, item, None);
    previous := Find(chat.messages, item, None);
    var before := if previous.Some? then previous.value else Message(item, None, false, None, "", false, None);
    m := before.(user := false, turn := Known(turn, before.turn, chat.turn),
                 text := if complete then text else before.text + text, complete := complete);
    assert "" + text == text;
    UpsertPlaces(chat.messages, m);
  }

  /** A tool's message has no text, and belongs to the turn named or the current one. */
  lemma ToolShows(chat: Chat, turn: string, item: string) returns (belongs: Option<string>)
    requires !Discarded(chat, turn)
    ensures Belongs(belongs, turn, None, chat.turn)
    ensures var after := Reduce(chat, ToolChanged(turn, item));
            && after == chat.(messages := after.messages)
            && (forall i :: 0 <= i < |chat.messages| ==>
                  i < |after.messages| && after.messages[i] ==
                    if chat.messages[i].id == item then chat.messages[i].(user := false, turn := belongs, text := "") else chat.messages[i])
            && after.messages[|chat.messages|..] ==
                 if exists i :: 0 <= i < |chat.messages| && chat.messages[i].id == item then []
                 else [Message(item, None, false, belongs, "", false, None)]
  {
    belongs := Known(turn, None, chat.turn);
    assert forall i :: 0 <= i < |chat.messages| ==> (Matches(chat.messages[i], item, None) <==> chat.messages[i].id == item);
  }

  /** So has its output, which keeps what else was known of the item. */
  lemma ToolOutputShows(chat: Chat, turn: string, item: string) returns (previous: Option<Message>, m: Message)
    requires !Discarded(chat, turn)
    ensures Earlier(chat.messages, item, None, previous)
    ensures Belongs(m.turn, turn, None, chat.turn) && m.text == "" && !m.user && m.id == item
    ensures previous.Some? ==>
              m.clientId == previous.value.clientId && m.complete == previous.value.complete && m.sentAt == previous.value.sentAt
    ensures previous.None? ==> m.clientId.None? && !m.complete && m.sentAt.None?
    ensures var after := Reduce(chat, ToolOutput(turn, item));
            after == chat.(messages := after.messages) && Placed(chat.messages, after.messages, m)
  {
    FindEarlier(chat.messages, item, None);
    previous := Find(chat.messages, item, None);
    var before := if previous.Some? then previous.value else Message(item, None, false, None, "", false, None);
    m := before.(user := false, turn := Known(turn, None, chat.turn), text := "");
    UpsertPlaces(chat.messages, m);
  }

  // ----- Snapshots -----

  /** A snapshot sets what it knows and leaves the messages alone; a discarded turn is
      not taken from it. */
  lemma SnapshotSets(chat: Chat, snapshot: Snapshot)
    requires snapshot.pending == []
    ensures var after := ApplySnapshot(chat, snapshot);
            && after.messages == chat.messages && after.discarded == chat.discarded && after.warning == chat.warning
            && after.closed == snapshot.closed && after.questions == []
            && (forall id :: after.turn == Some(id) <==> snapshot.turn == Some(id) && id != "" && id !in chat.discarded)
            && (forall plan :: after.plan == Some(plan) <==> snapshot.plan == Some(plan) && plan.turn !in chat.discarded)
            && (forall id :: id in after.turns <==>
                  id in chat.turns || (snapshot.current.Some? && snapshot.current.value.id == id && id !in chat.discarded))
            && (forall id :: id in after.turns ==>
                  after.turns[id] ==
                    if snapshot.current.Some? && snapshot.current.value.id == id && id !in chat.discarded
                    then snapshot.current.value.state else chat.turns[id])
  {}

  /** Its pending events are then received in order. */
  lemma SnapshotReplays(chat: Chat, snapshot: Snapshot)
    ensures ApplySnapshot(chat, snapshot) == ReduceAll(ApplySnapshot(chat, snapshot.(pending := [])), snapshot.pending)
    ensures forall e :: ApplySnapshot(chat, snapshot.(pending := snapshot.pending + [e])) == Reduce(ApplySnapshot(chat, snapshot), e)
  {
    var base := ApplySnapshot(chat, snapshot.(pending := []));
    forall e ensures ApplySnapshot(chat, snapshot.(pending := snapshot.pending + [e])) == Reduce(ApplySnapshot(chat, snapshot), e) {
      ReduceAllLast(base, snapshot.pending + [e]);
      assert (snapshot.pending + [e])[..|snapshot.pending|] == snapshot.pending;
    }
  }

  // ----- Pages -----

  /** The page's last word on a turn; a turn that is over is not made to run again. */
  lemma {:induction false} PageTurnState(known: map<string, TurnState>, turns: seq<Turn>, t: nat)
    requires t < |turns| && forall u :: t < u < |turns| ==> turns[u].id != turns[t].id
    ensures var id, page := turns[t].id, PageTurns(known, turns);
            && id in page
            && (turns[t].state.status == "inProgress" && id in known && known[id].status != "inProgress" ==> page[id] == known[id])
            && (!(turns[t].state.status == "inProgress" && id in known && known[id].status != "inProgress") ==> page[id] == turns[t].state)
  {
    var n := |turns| - 1;
    if t < n {
      assert turns[..n][t] == turns[t];
      PageTurnState(known, turns[..n], t);
    }
  }

  lemma {:induction false} PageTurnAbsent(known: map<string, TurnState>, turns: seq<Turn>, id: string)
    requires forall t :: 0 <= t < |turns| ==> turns[t].id != id
    ensures id !in PageTurns(known, turns)
  {
    if turns != [] {
      PageTurnAbsent(known, turns[..|turns| - 1], id);
    }
  }

  /** Merging a page changes the messages and the states of the page's turns only. */
  lemma PageSetsTurns(chat: Chat, turns: seq<Turn>, older: bool, collate: Collation, id: string)
    ensures var after := MergePage(chat, turns, older, collate);
            && after == chat.(messages := after.messages, turns := after.turns)
            && ((forall t :: 0 <= t < |turns| ==> turns[t].id != id) ==>
                  (id in after.turns <==> id in chat.turns) && (id in chat.turns ==> after.turns[id] == chat.turns[id]))
            && (forall t :: 0 <= t < |turns| && turns[t].id == id && (forall u :: t < u < |turns| ==> turns[u].id != id) ==>
                  && id in after.turns
                  && after.turns[id] ==
                       if turns[t].state.status == "inProgress" && id in chat.turns && chat.turns[id].status != "inProgress"
                       then chat.turns[id] else turns[t].state)
  {
    if forall t :: 0 <= t < |turns| ==> turns[t].id != id {
      PageTurnAbsent(chat.turns, turns, id);
    }
    forall t: nat | t < |turns| && turns[t].id == id && (forall u :: t < u < |turns| ==> turns[u].id != id)
      ensures id in PageTurns(chat.turns, turns)
      ensures PageTurns(chat.turns, turns)[id] ==
                if turns[t].state.status == "inProgress" && id in chat.turns && chat.turns[id].status != "inProgress"
                then chat.turns[id] else turns[t].state
    {
      PageTurnState(chat.turns, turns, t);
    }
  }

  /** A revert leaves nothing but the page and what was discarded. */
  lemma RevertLeavesThePage(chat: Chat, turns: seq<Turn>, removed: seq<string>, collate: Collation)
    ensures var after := ReplaceHistory(chat, turns, removed, collate);
            && after.turn.None? && after.plan.None? && after.questions == [] && after.warning.None? && after.closed == chat.closed
            && (forall id :: id in after.discarded <==> id in chat.discarded || id in removed)
            && (forall m :: m in after.messages ==> m in PageItems(turns, collate))
            && (forall id :: id in after.turns <==> exists t :: 0 <= t < |turns| && turns[t].id == id)
  {
    var items := PageItems(turns, collate);
    OnlyThePage(items, collate);
    forall id ensures id in PageTurns(map[], turns) <==> exists t :: 0 <= t < |turns| && turns[t].id == id {
      if t :| 0 <= t < |turns| && turns[t].id == id {
        PageTurnKnown(map[], turns, t);
      } else {
        PageTurnAbsent(map[], turns, id);
      }
    }
  }

  lemma {:induction false} PageTurnKnown(known: map<string, TurnState>, turns: seq<Turn>, t: nat)
    requires t < |turns|
    ensures turns[t].id in PageTurns(known, turns)
  {
    var n := |turns| - 1;
    if t < n {
      assert turns[..n][t] == turns[t];
      PageTurnKnown(known, turns[..n], t);
    }
  }

  lemma OnlyThePage(items: seq<Message>, collate: Collation)
    ensures forall m :: m in Merged([], items, false, collate) ==> m in items
  {
    assert ByName([]) == map[];
    assert Blended([], items) == items;
    assert Replaced([], items) == [];
    InsertedFromPage([], items, 0);
    SortMembers(InsertFrom([], items, 0, false), TurnOrder(collate));
  }

  lemma {:induction false} InsertedFromPage(list: seq<Message>, items: seq<Message>, k: nat)
    requires k <= |items| && forall m :: m in list ==> m in items
    ensures forall m :: m in InsertFrom(list, items, k, false) ==> m in items
    decreases |items| - k
  {
    if k < |items| {
      InsertedFromPage(InsertOne(list, items, k, false), items, k + 1);
    }
  }
}
