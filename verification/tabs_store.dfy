/** The tab store itself: the class that owns the open tabs and their reads. */
module TabsStore {
  import opened Wrappers
  import opened Tabs
  import opened TabsRelocate
  import opened TabsReads

  class FileTabs {
    var tabs: seq<Tab>
    var requests: map<nat, Identity>
    var generations: map<Key, nat>
    var nextToken: nat

    ghost function Contents(): State
      reads this
    {
      State(tabs, requests, generations, nextToken)
    }

    constructor ()
      ensures Contents() == EMPTY && Valid(Contents())
    {
      tabs, requests, generations, nextToken := [], map[], map[], 0;
    }

    method Position(key: Key) returns (at: nat)
      ensures at == match Find(tabs, key) case Some(i) => i case None => |tabs|
      ensures at < |tabs| <==> Find(tabs, key).Some?
    {
      var found := Find(tabs, key);
      at := if found.Some? then found.value else |tabs|;
    }

    /** Start a read; a tab that is already there keeps its place in the list. */
    method Load(file: Identity)
      requires Valid(Contents()) && CorrectIdentity(file) && file.key !in generations
      modifies this
      ensures Contents() == Tabs.Load(old(Contents()), file) && Valid(Contents())
    {
      LoadKeeps(Contents(), file);
      ChangeIsUpdate(tabs, file.key, _ => LoadingTab(file));
      var token := nextToken;
      nextToken := nextToken + 1;
      generations := generations[file.key := token];
      requests := requests[token := file];
      var at := Position(file.key);
      tabs := if at < |tabs| then tabs[at := LoadingTab(file)] else tabs + [LoadingTab(file)];
    }

    method Open(file: Identity)
      requires Valid(Contents()) && CorrectIdentity(file)
      modifies this
      ensures Contents() == Tabs.Open(old(Contents()), file) && Valid(Contents())
    {
      var at := Position(file.key);
      if at == |tabs| {
        OpenFresh(Contents(), file.key);
        Load(file);
      }
    }

    method Retry(key: Key)
      requires Valid(Contents())
      modifies this
      ensures Contents() == Tabs.Retry(old(Contents()), key) && Valid(Contents())
    {
      var at := Position(key);
      if at < |tabs| && (tabs[at].status.Failed? || tabs[at].status.Preview?) {
        Load(IdentityOf(tabs[at]));
      }
    }

    method Close(key: Key)
      requires Valid(Contents())
      modifies this
      ensures Contents() == Tabs.Close(old(Contents()), key) && Valid(Contents())
    {
      CloseKeeps(Contents(), key);
      generations := generations - {key};
      tabs := Without(tabs, key);
    }

    /** A read has finished, perhaps long after its tab was closed or moved. */
    method Settle(token: nat, outcome: Outcome)
      requires Valid(Contents()) && token in requests
      modifies this
      ensures Contents() == Tabs.Settle(old(Contents()), token, outcome) && Valid(Contents())
    {
      SettleKeeps(Contents(), token, outcome);
      var file := requests[token];
      requests := requests - {token};
      if file.key in generations && generations[file.key] == token {
        ChangeIsUpdate(tabs, file.key, _ => SettledTab(file, outcome));
        generations := generations - {file.key};
        var at := Position(file.key);
        if at < |tabs| {
          tabs := tabs[at := SettledTab(file, outcome)];
        }
      }
    }

    method Adopt(file: Identity, text: string, original: string, conflict: Option<Conflict>)
      requires Valid(Contents()) && CorrectIdentity(file) && file.key !in generations
      modifies this
      ensures Contents() == Tabs.Adopt(old(Contents()), file, text, original, conflict) && Valid(Contents())
    {
      AdoptKeeps(Contents(), file, text, original, conflict);
      tabs := Without(tabs, file.key) + [LoadingTab(file).(status := Text(text, original, false, conflict))];
    }

    method Update(key: Key, edit: Edit)
      requires Valid(Contents())
      modifies this
      ensures Contents() == Tabs.Update(old(Contents()), key, edit) && Valid(Contents())
    {
      ghost var goal := Tabs.Update(Contents(), key, edit);
      UpdateIs(Contents(), key, edit);
      UpdateKeeps(Contents(), key, edit);
      var at := Position(key);
      if at == |tabs| || !tabs[at].status.Text? || (tabs[at].transferring.Some? && edit.text.Some?) { return; }
      tabs := tabs[at := Edited(tabs[at], edit)];
      assert Contents() == goal;
    }

    static lemma UpdateIs(s: State, key: Key, edit: Edit)
      requires DistinctKeys(s.tabs)
      ensures Tabs.Update(s, key, edit) ==
                match Find(s.tabs, key)
                case None => s
                case Some(i) =>
                  if !s.tabs[i].status.Text? || (s.tabs[i].transferring.Some? && edit.text.Some?) then s
                  else s.(tabs := s.tabs[i := Edited(s.tabs[i], edit)])
    {
      ChangeIsUpdate(s.tabs, key, (t: Tab) => Edited(t, edit));
    }

    /** The turn of one tab in `Relocate`: abandon its read, then bind it to its new
        place or let it wait for a protected tab there. */
    method MoveTab(list: seq<Tab>, origins: seq<nat>, keys: map<Key, Key>, origin: nat, move: Move)
      returns (list': seq<Tab>, origins': seq<nat>, keys': map<Key, Key>)
      requires |origins| == |list|
      modifies this`generations
      ensures Moving(list', origins', generations, keys') == MoveOne(Moving(list, origins, old(generations), keys), origin, move)
    {
      list', origins', keys' := list, origins, keys;
      var at := Locate(origins, origin);
      if at.None? || !Selected(list[at.value], move) { return; }
      var tab := list[at.value];
      generations := generations - {tab.key};
      var key := NewKey(tab, move);
      var rival := Rival(list, at.value, key);
      if rival.Some? && Protected(list[rival.value]) {
        list' := list[at.value := Waiting(tab, move)];
        return;
      }
      list' := list[at.value := Bound(tab, move)];
      keys' := keys[tab.key := key];
      if rival.Some? {
        generations := generations - {key};
        list' := Drop(list', rival.value);
        origins' := Drop(origins, rival.value);
      }
    }

    /** Give every tab its turn. */
    method MoveTabs(move: Move) returns (list: seq<Tab>, keys: map<Key, Key>)
      modifies this`generations
      ensures list == Moved(old(Contents()), move).tabs
      ensures keys == Moved(old(Contents()), move).keys
      ensures generations == Moved(old(Contents()), move).generations
    {
      ghost var goal := Moved(Contents(), move);
      var order := Order(tabs);
      var origins: seq<nat> := seq(|tabs|, i => i);
      list, keys := tabs, map[];
      var turn := 0;
      while turn < |order|
        invariant turn <= |order| && |origins| == |list|
        invariant MoveAll(Moving(list, origins, generations, keys), order[turn..], move) == goal
      {
        list, origins, keys := MoveTab(list, origins, keys, order[turn], move);
        turn := turn + 1;
      }
    }

    /** Follow a rename. `keys` says which tabs got a new key. */
    method Relocate(move: Move) returns (keys: map<Key, Key>)
      requires Valid(Contents())
      modifies this
      ensures Contents() == Tabs.Relocate(old(Contents()), move) && Valid(Contents())
      ensures keys == Moved(old(Contents()), move).keys
      ensures Drafts(tabs) == Drafts(old(tabs))
    {
      RelocateKeeps(Contents(), move);
      RelocateKeepsDrafts(Contents(), move);
      var list;
      list, keys := MoveTabs(move);
      tabs := list;
    }
  }
}
