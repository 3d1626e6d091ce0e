/** Merging a page of history into the live message list. */
module ChatHistory {
  import opened Wrappers
  import opened StableSorting

  /** A missing property and an undefined one are both `None`; `user` is the role. */
  datatype Message = Message(
    id: string, clientId: Option<string>, user: bool, turn: Option<string>, text: string, complete: bool,
    sentAt: Option<int>)

  /** The comparison of turn identifiers (`localeCompare`) is a parameter. */
  type Collation = (string, string) -> bool

  // ----- Pages -----

  /** What a page delivers; `attached` says that a tool or questions come with it. */
  datatype Item = Item(
    id: string, kind: string, clientId: Option<string>, sentAt: Option<int>, text: string, attached: bool)

  datatype TurnState = TurnState(status: string, startedAt: Option<int>)

  /** `itemsBefore`: earlier items of the turn are not on the page. */
  datatype Turn = Turn(id: string, state: TurnState, itemsBefore: bool, items: seq<Item>)

  predicate ByUser(item: Item) {
    item.kind == "userMessage"
  }

  /** Empty items are left out. */
  predicate Visible(item: Item) {
    item.text != "" || item.attached
  }

  function MessageOf(turn: Turn, item: Item, first: bool): Message {
    Message(item.id, item.clientId, ByUser(item), Some(turn.id), item.text, turn.state.status != "inProgress",
            if item.sentAt.Some? then item.sentAt
            else if ByUser(item) && first && !turn.itemsBefore then turn.state.startedAt else None)
  }

  /** The messages of the items from `k` on; `first` says that no user message has
      been seen before. */
  function ShownFrom(turn: Turn, k: nat, first: bool): seq<Message>
    requires k <= |turn.items|
    decreases |turn.items| - k
  {
    if k == |turn.items| then []
    else
      (if Visible(turn.items[k]) then [MessageOf(turn, turn.items[k], first)] else []) +
      ShownFrom(turn, k + 1, first && !ByUser(turn.items[k]))
  }

  function Shown(turn: Turn): seq<Message> {
    ShownFrom(turn, 0, true)
  }

  function Flatten(turns: seq<Turn>): seq<Message> {
    if turns == [] then [] else Shown(turns[0]) + Flatten(turns[1..])
  }

  /** The page's turns in order, flattened. */
  function PageItems(turns: seq<Turn>, collate: Collation): seq<Message> {
    Flatten(Sort(turns, (a: Turn, b: Turn) => collate(a.id, b.id)))
  }

  method TurnMessages(turn: Turn) returns (messages: seq<Message>)
    ensures messages == Shown(turn)
  {
    messages := [];
    var first := true;
    for k := 0 to |turn.items|
      invariant messages + ShownFrom(turn, k, first) == Shown(turn)
    {
      var item := turn.items[k];
      if Visible(item) {
        messages := messages + [MessageOf(turn, item, first)];
      }
      if ByUser(item) {
        first := false;
      }
    }
  }

  /** `historyMessages` of a page. */
  method HistoryMessages(turns: seq<Turn>, collate: Collation) returns (items: seq<Message>)
    ensures items == PageItems(turns, collate)
  {
    var sorted := Sort(turns, (a: Turn, b: Turn) => collate(a.id, b.id));
    items := [];
    for t := 0 to |sorted|
      invariant items + Flatten(sorted[t..]) == Flatten(sorted)
    {
      var messages := TurnMessages(sorted[t]);
      assert sorted[t..][1..] == sorted[t + 1..];
      items := items + messages;
    }
    assert sorted[|sorted|..] == [];
  }

  // ----- Finding the same message under either name -----

  predicate HasClient(m: Message) {
    m.clientId.Some? && m.clientId.value != ""
  }

  function Names(m: Message): set<string> {
    {m.id} + if HasClient(m) then {m.clientId.value} else {}
  }

  function Register(live: map<string, Message>, m: Message): map<string, Message> {
    var byId := live[m.id := m];
    if HasClient(m) then byId[m.clientId.value := m] else byId
  }

  function ByName(messages: seq<Message>): map<string, Message> {
    if messages == [] then map[]
    else Register(ByName(messages[..|messages| - 1]), messages[|messages| - 1])
  }

  function Lookup(live: map<string, Message>, m: Message): Option<Message> {
    if m.id in live then Some(live[m.id])
    else if HasClient(m) && m.clientId.value in live then Some(live[m.clientId.value])
    else None
  }

  /** A final or longer item replaces what the live message says. */
  predicate Overrides(item: Message, current: Message) {
    item.complete || |item.text| > |current.text|
  }

  /** Otherwise the live text and the live turn stay, even if there is no live turn. */
  function Blend(current: Message, item: Message): Message {
    var source :=
      if Overrides(item, current) then item
      else Message(item.id,
                   if current.clientId.Some? then current.clientId else item.clientId,
                   current.user,
                   current.turn,
                   current.text, current.complete, item.sentAt);
    source.(id := item.id, sentAt := if current.sentAt.Some? then current.sentAt else item.sentAt)
  }

  function Blended(messages: seq<Message>, items: seq<Message>): (r: seq<Message>)
    ensures |r| == |items|
  {
    var live := ByName(messages);
    seq(|items|, k requires 0 <= k < |items| =>
      var current := Lookup(live, items[k]);
      if current.Some? then Blend(current.value, items[k]) else items[k])
  }

  function Replaced(messages: seq<Message>, history: seq<Message>): (r: seq<Message>)
    ensures |r| == |messages|
  {
    var replacements := ByName(history);
    seq(|messages|, i requires 0 <= i < |messages| =>
      var item := Lookup(replacements, messages[i]);
      if item.Some? then item.value else messages[i])
  }

  // ----- Inserting what is new next to its neighbours -----

  function IndexOf(messages: seq<Message>, id: string): (r: Option<nat>)
    ensures r.Some? ==> r.value < |messages| && messages[r.value].id == id
    ensures r.None? ==> forall i :: 0 <= i < |messages| ==> messages[i].id != id
  {
    if messages == [] then None
    else if messages[0].id == id then Some(0)
    else
      var rest := IndexOf(messages[1..], id);
      if rest.None? then None else Some(rest.value + 1)
  }

  /** The first later item of the same turn that is already in the list. */
  function NextAnchor(messages: seq<Message>, history: seq<Message>, turn: Option<string>, from: nat): (r: Option<nat>)
    requires from <= |history|
    ensures r.Some? ==> from <= r.value < |history| && history[r.value].turn == turn && IndexOf(messages, history[r.value].id).Some?
    ensures forall k :: from <= k < (if r.Some? then r.value else |history|) ==>
              history[k].turn != turn || IndexOf(messages, history[k].id).None?
    decreases |history| - from
  {
    if from == |history| then None
    else if history[from].turn == turn && IndexOf(messages, history[from].id).Some? then Some(from)
    else NextAnchor(messages, history, turn, from + 1)
  }

  /** Where a new item goes: before its next neighbour, else after its previous
      one, else at the old or the new end of the list. */
  function Slot(messages: seq<Message>, history: seq<Message>, k: nat, older: bool): (at: nat)
    requires k < |history|
    ensures at <= |messages|
  {
    var next := NextAnchor(messages, history, history[k].turn, k + 1);
    if next.Some? then IndexOf(messages, history[next.value].id).value
    else if k > 0 && history[k - 1].turn == history[k].turn then
      match IndexOf(messages, history[k - 1].id)
      case Some(at) => at + 1
      case None => 0
    else if older then 0 else |messages|
  }

  function Splice(messages: seq<Message>, at: nat, m: Message): seq<Message>
    requires at <= |messages|
  {
    messages[..at] + [m] + messages[at..]
  }

  function InsertOne(messages: seq<Message>, history: seq<Message>, k: nat, older: bool): seq<Message>
    requires k < |history|
  {
    if IndexOf(messages, history[k].id).Some? then messages
    else Splice(messages, Slot(messages, history, k, older), history[k])
  }

  function InsertFrom(messages: seq<Message>, history: seq<Message>, k: nat, older: bool): seq<Message>
    requires k <= |history|
    decreases |history| - k
  {
    if k == |history| then messages
    else InsertFrom(InsertOne(messages, history, k, older), history, k + 1, older)
  }

  // ----- The order of turns -----

  predicate HasTurn(m: Message) {
    m.turn.Some? && m.turn.value != ""
  }

  /** Messages without a turn come last. */
  function TurnOrder(collate: Collation): (Message, Message) -> bool {
    (a: Message, b: Message) =>
      if HasTurn(a) && HasTurn(b) then collate(a.turn.value, b.turn.value)
      else HasTurn(a) || !HasTurn(b)
  }

  function Merged(messages: seq<Message>, items: seq<Message>, older: bool, collate: Collation): seq<Message> {
    var history := Blended(messages, items);
    Sort(InsertFrom(Replaced(messages, history), history, 0, older), TurnOrder(collate))
  }

  /** `mergeHistory` as the source writes it. */
  method MergeHistory(messages: seq<Message>, turns: seq<Turn>, older: bool, collate: Collation) returns (result: seq<Message>)
    ensures result == Merged(messages, PageItems(turns, collate), older, collate)
  {
    var items := HistoryMessages(turns, collate);
    var history := Blended(messages, items);
    var list := InsertHistory(Replaced(messages, history), history, older);
    result := Sort(list, TurnOrder(collate));
  }

  method InsertHistory(messages: seq<Message>, history: seq<Message>, older: bool) returns (list: seq<Message>)
    ensures list == InsertFrom(messages, history, 0, older)
  {
    list := messages;
    var previous: Option<Message> := None;
    for index := 0 to |history|
      invariant InsertFrom(list, history, index, older) == InsertFrom(messages, history, 0, older)
      invariant previous == if index == 0 then None else Some(history[index - 1])
    {
      var item := history[index];
      if IndexOf(list, item.id).None? {
        var at := Place(list, history, index, previous, older);
        list := Splice(list, at, item);
      }
      previous := Some(item);
    }
  }

  method Place(list: seq<Message>, history: seq<Message>, index: nat, previous: Option<Message>, older: bool) returns (place: nat)
    requires index < |history| && previous == if index == 0 then None else Some(history[index - 1])
    ensures place == Slot(list, history, index, older)
  {
    var item := history[index];
    var next := NextAnchor(list, history, item.turn, index + 1);
    var at: Option<nat> := if next.Some? then IndexOf(list, history[next.value].id) else None;
    if at.None? && previous.Some? && previous.value.turn == item.turn {
      var before := IndexOf(list, previous.value.id);
      at := Some(if before.Some? then before.value + 1 else 0);
    }
    if at.None? {
      at := Some(if older then 0 else |list|);
    }
    place := at.value;
  }
}
