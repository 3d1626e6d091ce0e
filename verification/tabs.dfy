/** Open-file tabs, the reads behind them, and what each operation does to both. */
module Tabs {
  import opened Wrappers
  import opened Paths

  /** `JSON.stringify([server, remotePath])`, which is injective. */
  datatype Key = Key(server: string, absolute: string)

  function FileKey(server: string, root: string, path: string): Key {
    Key(server, RemotePath(root, path))
  }

  datatype Identity = Identity(key: Key, context: string, server: string, root: string, path: string)

  datatype Conflict = Conflict(path: string, text: string)

  datatype Status =
    | Loading
    | Failed(error: string)
    | Text(text: string, original: string, saving: bool, conflict: Option<Conflict>)
    | Preview

  datatype Tab = Tab(
    key: Key, context: string, server: string, root: string, path: string,
    locationError: Option<string>, pendingMove: Option<string>, transferring: Option<string>, status: Status)

  predicate Ready(tab: Tab) {
    tab.status.Text? || tab.status.Preview?
  }

  /** A draft that would be lost with its tab. */
  predicate Unsaved(tab: Tab) {
    tab.status.Text? && tab.status.text != tab.status.original
  }

  predicate Protected(tab: Tab) {
    || tab.pendingMove.Some?
    || (Ready(tab) && tab.transferring.Some?)
    || (tab.status.Text? && tab.status.saving)
    || Unsaved(tab)
  }

  /** What a finished read delivers. */
  datatype Outcome = TextRead(text: string) | PreviewRead | ReadFailed(error: string)

  /** `requests` are the reads that have not settled, by token; `generations` says
      which read a tab is waiting for. */
  datatype State = State(tabs: seq<Tab>, requests: map<nat, Identity>, generations: map<Key, nat>, nextToken: nat)

  const EMPTY := State([], map[], map[], 0)

  function Find(tabs: seq<Tab>, key: Key): (r: Option<nat>)
    ensures r.Some? ==> r.value < |tabs| && tabs[r.value].key == key
    ensures r.None? ==> forall i :: 0 <= i < |tabs| ==> tabs[i].key != key
  {
    if tabs == [] then None
    else if tabs[0].key == key then Some(0)
    else
      var rest := Find(tabs[1..], key);
      if rest.None? then None else Some(rest.value + 1)
  }

  /** `tabs.map(current => current.key === key ? change(current) : current)` */
  function Change(tabs: seq<Tab>, key: Key, change: Tab -> Tab): (r: seq<Tab>) {
    seq(|tabs|, i requires 0 <= i < |tabs| => if tabs[i].key == key then change(tabs[i]) else tabs[i])
  }

  /** `tabs.filter(tab => tab.key !== key)` */
  function Without(tabs: seq<Tab>, key: Key): (r: seq<Tab>)
    ensures forall t :: t in r <==> t in tabs && t.key != key
  {
    if tabs == [] then []
    else (if tabs[0].key == key then [] else [tabs[0]]) + Without(tabs[1..], key)
  }

  function LoadingTab(file: Identity): Tab {
    Tab(file.key, file.context, file.server, file.root, file.path, None, None, None, Loading)
  }

  function SettledTab(file: Identity, outcome: Outcome): Tab {
    LoadingTab(file).(status :=
      match outcome
      case TextRead(text) => Text(text, text, false, None)
      case PreviewRead => Preview
      case ReadFailed(error) => Failed(error))
  }

  function IdentityOf(tab: Tab): Identity {
    Identity(tab.key, tab.context, tab.server, tab.root, tab.path)
  }

  // ----- Operations other than relocate -----

  function Load(s: State, file: Identity): State {
    State(
      if Find(s.tabs, file.key).Some? then Change(s.tabs, file.key, _ => LoadingTab(file)) else s.tabs + [LoadingTab(file)],
      s.requests[s.nextToken := file],
      s.generations[file.key := s.nextToken],
      s.nextToken + 1)
  }

  function Open(s: State, file: Identity): State {
    if Find(s.tabs, file.key).Some? then s else Load(s, file)
  }

  function Retry(s: State, key: Key): State {
    var at := Find(s.tabs, key);
    if at.Some? && (s.tabs[at.value].status.Failed? || s.tabs[at.value].status.Preview?)
    then Load(s, IdentityOf(s.tabs[at.value])) else s
  }

  function Close(s: State, key: Key): State {
    s.(generations := s.generations - {key}, tabs := Without(s.tabs, key))
  }

  function Settle(s: State, token: nat, outcome: Outcome): State {
    if token !in s.requests then s
    else
      var file := s.requests[token];
      var remaining := s.requests - {token};
      if file.key in s.generations && s.generations[file.key] == token then
        s.(requests := remaining, generations := s.generations - {file.key},
           tabs := Change(s.tabs, file.key, _ => SettledTab(file, outcome)))
      else s.(requests := remaining)
  }

  function Adopt(s: State, file: Identity, text: string, original: string, conflict: Option<Conflict>): State {
    s.(tabs := Without(s.tabs, file.key) + [LoadingTab(file).(status := Text(text, original, false, conflict))])
  }

  /** The parts of a buffer the editor changes; `None` leaves a part alone. */
  datatype Edit = Edit(text: Option<string>, original: Option<string>, saving: Option<bool>)

  function Edited(tab: Tab, edit: Edit): Tab {
    if !tab.status.Text? then tab
    else tab.(status := Text(
      if edit.text.Some? then edit.text.value else tab.status.text,
      if edit.original.Some? then edit.original.value else tab.status.original,
      if edit.saving.Some? then edit.saving.value else tab.status.saving,
      tab.status.conflict))
  }

  function Update(s: State, key: Key, edit: Edit): State {
    var at := Find(s.tabs, key);
    if at.None? || !s.tabs[at.value].status.Text? || (s.tabs[at.value].transferring.Some? && edit.text.Some?) then s
    else s.(tabs := Change(s.tabs, key, (t: Tab) => Edited(t, edit)))
  }

  function SetTransfer(s: State, key: Key, transferring: Option<string>): State {
    s.(tabs := Change(s.tabs, key, (t: Tab) => if Ready(t) then t.(transferring := transferring) else t))
  }

  function Bind(s: State, key: Key, context: string): State {
    s.(tabs := Change(s.tabs, key, (t: Tab) => if t.pendingMove.None? then t.(context := context, locationError := None) else t))
  }

  function LocationFailed(s: State, key: Key, error: string): State {
    s.(tabs := Change(s.tabs, key, (t: Tab) => t.(locationError := Some(error))))
  }

  function RetainedContexts(s: State): set<string> {
    (set t | t in s.tabs :: t.context) + (set token | token in s.requests :: s.requests[token].context)
  }

  // ----- relocate -----

  function CurrentPath(tab: Tab): string {
    if tab.pendingMove.Some? then tab.pendingMove.value else RemotePath(tab.root, tab.path)
  }

  datatype Move = Move(server: string, source: string, destination: string)

  function NextPath(tab: Tab, move: Move): string {
    MovedPath(CurrentPath(tab), move.source, move.destination)
  }

  /** Does the move concern this tab? */
  predicate Selected(tab: Tab, move: Move) {
    && tab.server == move.server
    && Within(move.source, CurrentPath(tab))
    && (tab.pendingMove.Some? || NextPath(tab, move) != CurrentPath(tab))
  }

  /** A tab keeps its root when the new path is below it. */
  function NewRoot(tab: Tab, next: string): string {
    if RelativePath(tab.root, next).Some? then tab.root else "/"
  }

  function NewPath(tab: Tab, next: string): string {
    match RelativePath(tab.root, next)
    case Some(relative) => relative
    case None => Slice(next, 1)
  }

  function NewKey(tab: Tab, move: Move): Key {
    var next := NextPath(tab, move);
    FileKey(move.server, NewRoot(tab, next), NewPath(tab, next))
  }

  /** A read for the old path is abandoned; drafts travel unchanged. */
  function Carried(status: Status): Status {
    match status
    case Text(_, _, _, _) => status.(saving := false)
    case Preview => Preview
    case _ => Failed("Opening the moved file…")
  }

  function Waiting(tab: Tab, move: Move): Tab {
    var next := NextPath(tab, move);
    tab.(status := Carried(tab.status), pendingMove := Some(next),
         locationError := Some("This file moved to " + next + ". Close the conflicting destination tab, then retry."))
  }

  function Bound(tab: Tab, move: Move): Tab {
    var next := NextPath(tab, move);
    var path := NewPath(tab, next);
    var status := match Carried(tab.status)
                  case Text(text, original, saving, Some(conflict)) => Text(text, original, saving, Some(conflict.(path := path)))
                  case other => other;
    Tab(NewKey(tab, move), if RelativePath(tab.root, next).None? then "" else tab.context,
        tab.server, NewRoot(tab, next), path, None, None, tab.transferring, status)
  }

  /** The list being rebuilt. The identity of the object at position `i` is the
      position `origins[i]` that it had in the original list. */
  datatype Moving = Moving(tabs: seq<Tab>, origins: seq<nat>, generations: map<Key, nat>, keys: map<Key, Key>)

  function Locate(origins: seq<nat>, origin: nat): (r: Option<nat>)
    ensures r.Some? ==> r.value < |origins| && origins[r.value] == origin
    ensures r.None? ==> origin !in origins
  {
    if origins == [] then None
    else if origins[0] == origin then Some(0)
    else
      var rest := Locate(origins[1..], origin);
      if rest.None? then None else Some(rest.value + 1)
  }

  /** Another tab than the one at `at` that has this key. */
  function Rival(tabs: seq<Tab>, at: nat, key: Key): (r: Option<nat>)
    requires at < |tabs|
    ensures r.Some? ==> r.value < |tabs| && r.value != at && tabs[r.value].key == key
    ensures r.None? ==> forall i :: 0 <= i < |tabs| && i != at ==> tabs[i].key != key
  {
    var before := Find(tabs[..at], key);
    var behind := Find(tabs[at + 1..], key);
    if before.Some? then before
    else if behind.Some? then
      assert tabs[at + 1 + behind.value] == tabs[at + 1..][behind.value];
      Some(at + 1 + behind.value)
    else
      assert forall i :: at < i < |tabs| ==> tabs[i] == tabs[at + 1..][i - at - 1];
      None
  }

  function Drop<T>(list: seq<T>, at: nat): seq<T>
    requires at < |list|
  {
    list[..at] + list[at + 1..]
  }

  /** The tab at `at` waits if its goal is held by a protected tab; otherwise it is
      bound there, and a rival is removed. */
  function Turn(m: Moving, at: nat, rival: Option<nat>, move: Move): (r: Moving)
    requires |m.origins| == |m.tabs| && at < |m.tabs| && (rival.Some? ==> rival.value < |m.tabs|)
    ensures |r.origins| == |r.tabs|
  {
    var tab := m.tabs[at];
    var generations := m.generations - {tab.key};
    var key := NewKey(tab, move);
    if rival.Some? && Protected(m.tabs[rival.value]) then
      Moving(m.tabs[at := Waiting(tab, move)], m.origins, generations, m.keys)
    else
      var placed := m.tabs[at := Bound(tab, move)];
      if rival.Some? then
        Moving(Drop(placed, rival.value), Drop(m.origins, rival.value), generations - {key}, m.keys[tab.key := key])
      else Moving(placed, m.origins, generations, m.keys[tab.key := key])
  }

  /** One turn of the loop, for the tab that started at position `origin`. */
  function MoveOne(m: Moving, origin: nat, move: Move): (r: Moving)
    requires |m.origins| == |m.tabs|
    ensures |r.origins| == |r.tabs|
  {
    var at := Locate(m.origins, origin);
    if at.None? || !Selected(m.tabs[at.value], move) then m
    else Turn(m, at.value, Rival(m.tabs, at.value, NewKey(m.tabs[at.value], move)), move)
  }

  function MoveAll(m: Moving, order: seq<nat>, move: Move): (r: Moving)
    requires |m.origins| == |m.tabs|
    ensures |r.origins| == |r.tabs|
    decreases |order|
  {
    if order == [] then m else MoveAll(MoveOne(m, order[0], move), order[1..], move)
  }

  /** Bound tabs first, then the ones waiting for a place; stable. */
  function Positions(tabs: seq<Tab>, waiting: bool, from: nat): (r: seq<nat>)
    requires from <= |tabs|
    ensures forall i :: i in r <==> from <= i < |tabs| && (tabs[i].pendingMove.Some? <==> waiting)
    ensures forall a, b :: 0 <= a < b < |r| ==> r[a] < r[b]
    decreases |tabs| - from
  {
    if from == |tabs| then []
    else
      var rest := Positions(tabs, waiting, from + 1);
      assert forall a :: 0 <= a < |rest| ==> rest[a] in rest;
      if tabs[from].pendingMove.Some? == waiting then [from] + rest else rest
  }

  function Order(tabs: seq<Tab>): seq<nat> {
    Positions(tabs, false, 0) + Positions(tabs, true, 0)
  }

  function Unmoved(tabs: seq<Tab>, generations: map<Key, nat>): Moving {
    Moving(tabs, seq(|tabs|, i => i), generations, map[])
  }

  function Moved(s: State, move: Move): (r: Moving)
    ensures |r.origins| == |r.tabs|
  {
    MoveAll(Unmoved(s.tabs, s.generations), Order(s.tabs), move)
  }

  function Relocate(s: State, move: Move): State {
    var m := Moved(s, move);
    s.(tabs := m.tabs, generations := m.generations)
  }
}
