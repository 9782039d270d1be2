/** The schema chooser that sits in front of the engine: a menu of the
    configured schemas, most recently used first, and the rule that picks
    the schema to open. */
module Chooser {
  import opened Base
  import opened Ui
  import Keys
  import opened ZimeCore
  import opened ZimeEngine

  /** A stored schema: `(schema_key, display_name)`. */
  type Item = (string, string)

  /** A last-used record: `(schema_key, time)`. */
  type Stamp = (string, int)

  /** The dictionary the loop of `__load_schema_list` builds from the
      last-used records: later records overwrite earlier ones. */
  function Tabulate(records: seq<Stamp>): map<string, int>
  {
    if records == [] then map[]
    else Tabulate(records[..|records| - 1])[records[|records| - 1].0 := records[|records| - 1].1]
  }

  /** The table's keys are exactly the keys that have records. */
  lemma {:induction false} TabulateKeys(records: seq<Stamp>)
    ensures Tabulate(records).Keys == set r | r in records :: r.0
  {
    if records != [] {
      var before := records[..|records| - 1];
      TabulateKeys(before);
      assert records == before + [records[|records| - 1]];
    }
  }

  /** Every entry of the table is one of the records. */
  lemma {:induction false} TabulateFromRecords(records: seq<Stamp>)
    ensures forall k :: k in Tabulate(records) ==> (k, Tabulate(records)[k]) in records
  {
    if records != [] {
      var before := records[..|records| - 1];
      TabulateFromRecords(before);
      assert records == before + [records[|records| - 1]];
    }
  }

  /** The table holds, for every key, the time of the LAST record with it. */
  lemma {:induction false} TabulateLastWins(records: seq<Stamp>, i: nat)
    requires i < |records|
    requires forall j :: i < j < |records| ==> records[j].0 != records[i].0
    ensures records[i].0 in Tabulate(records) && Tabulate(records)[records[i].0] == records[i].1
  {
    var n := |records|;
    if i < n - 1 {
      var before := records[..n - 1];
      assert forall j :: i < j < |before| ==> before[j] == records[j];
      TabulateLastWins(before, i);
    }
  }

  /** The loop of `__load_schema_list` that builds the last-used table. */
  method LastUsedTable(records: seq<Stamp>) returns (t: map<string, int>)
    ensures t == Tabulate(records)
  {
    t := map[];
    for i := 0 to |records|
      invariant t == Tabulate(records[..i])
    {
      assert records[..i + 1][..i] == records[..i];
      t := t[records[i].0 := records[i].1];
    }
    assert records[..|records|] == records;
  }

  /** Records rewritten so that every record of `key` carries `time`. */
  function Restamp(records: seq<Stamp>, key: string, time: int): (r: seq<Stamp>)
    ensures |r| == |records|
    ensures forall i :: 0 <= i < |r| ==> r[i] == (if records[i].0 == key then (key, time) else records[i])
  {
    seq(|records|, i requires 0 <= i < |records| => if records[i].0 == key then (key, time) else records[i])
  }

  /** One more record updates the table at its key. */
  lemma TabulateSnoc(records: seq<Stamp>, x: Stamp)
    ensures Tabulate(records + [x]) == Tabulate(records)[x.0 := x.1]
  {
    assert (records + [x])[..|records|] == records;
  }

  /** Restamping distributes over the last record. */
  lemma RestampSnoc(before: seq<Stamp>, last: Stamp, key: string, time: int)
    ensures Restamp(before + [last], key, time)
            == Restamp(before, key, time) + [if last.0 == key then (key, time) else last]
  {
  }

  /** Restamping a key that has records updates exactly that key of the table. */
  lemma {:induction false} TabulateRestamp(records: seq<Stamp>, key: string, time: int)
    requires key in Tabulate(records)
    ensures Tabulate(Restamp(records, key, time)) == Tabulate(records)[key := time]
  {
    var n := |records|;
    var last, before := records[n - 1], records[..n - 1];
    var rb := Restamp(before, key, time);
    var stamped := if last.0 == key then (key, time) else last;
    assert records == before + [last];
    RestampSnoc(before, last, key, time);
    TabulateSnoc(rb, stamped);
    TabulateSnoc(before, last);
    var tb := Tabulate(before);
    if key in tb {
      TabulateRestamp(before, key, time);
    } else {
      RestampAbsent(before, key, time);
    }
    if last.0 != key {
      assert tb[key := time][last.0 := last.1] == tb[last.0 := last.1][key := time];
    }
  }

  /** Restamping a key with no records changes nothing. */
  lemma {:induction false} RestampAbsent(records: seq<Stamp>, key: string, time: int)
    requires key !in Tabulate(records)
    ensures Restamp(records, key, time) == records
  {
    if records != [] {
      var n := |records|;
      var before := records[..n - 1];
      RestampAbsent(before, key, time);
      assert Restamp(records, key, time) == Restamp(before, key, time) + [records[n - 1]];
      assert records == before + [records[n - 1]];
    }
  }

  /** The settings store the chooser reads and writes: the configured
      schemas, the last-used records, and each schema's configuration. */
  class Store {
    var schemas: seq<Item>
    var lastUsed: seq<Stamp>
    const configOf: string -> map<string, string>

    constructor (schemas: seq<Item>, lastUsed: seq<Stamp>, configOf: string -> map<string, string>)
      ensures this.schemas == schemas && this.lastUsed == lastUsed && this.configOf == configOf
    {
      this.schemas, this.lastUsed, this.configOf := schemas, lastUsed, configOf;
    }

    /** `update_setting` of a last-used time: the record of the key is
        overwritten, or added when there is none. Afterwards the table
        reads the new time for the key and the old times elsewhere. */
    method UpdateLastUsed(key: string, time: int)
      modifies this
      ensures schemas == old(schemas)
      ensures lastUsed == if key in Tabulate(old(lastUsed)) then Restamp(old(lastUsed), key, time)
                          else old(lastUsed) + [(key, time)]
      ensures Tabulate(lastUsed) == Tabulate(old(lastUsed))[key := time]
    {
      if key in Tabulate(lastUsed) {
        TabulateRestamp(lastUsed, key, time);
        lastUsed := Restamp(lastUsed, key, time);
      } else {
        assert (lastUsed + [(key, time)])[..|lastUsed|] == lastUsed;
        lastUsed := lastUsed + [(key, time)];
      }
    }
  }

  /** `last_used_time`: the recorded time of an item's key, 0 when it has none. */
  function LastUsedTime(t: map<string, int>, x: Item): (w: int)
    ensures x.0 in t ==> w == t[x.0]
    ensures x.0 !in t ==> w == 0
  {
    if x.0 in t then t[x.0] else 0
  }

  /** The items are in non-increasing order of last-used time. */
  ghost predicate NonIncreasing(l: seq<Item>, t: map<string, int>)
  {
    forall i, j :: 0 <= i < j < |l| ==> LastUsedTime(t, l[i]) >= LastUsedTime(t, l[j])
  }

  /** Place `x` before the first item used no later than it. */
  function Insert(x: Item, l: seq<Item>, t: map<string, int>): (r: seq<Item>)
    ensures multiset(r) == multiset(l) + multiset{x}
  {
    if l == [] || LastUsedTime(t, l[0]) <= LastUsedTime(t, x) then [x] + l
    else
      assert l == [l[0]] + l[1..];
      [l[0]] + Insert(x, l[1..], t)
  }

  /** Inserting into an ordered list keeps it ordered. */
  lemma {:induction false} InsertKeepsOrder(x: Item, l: seq<Item>, t: map<string, int>)
    requires NonIncreasing(l, t)
    ensures NonIncreasing(Insert(x, l, t), t)
  {
    if l != [] && LastUsedTime(t, l[0]) > LastUsedTime(t, x) {
      var rest := Insert(x, l[1..], t);
      InsertKeepsOrder(x, l[1..], t);
      forall k | 0 <= k < |rest|
        ensures LastUsedTime(t, l[0]) >= LastUsedTime(t, rest[k])
      {
        assert rest[k] in multiset(rest);
        if rest[k] != x {
          assert rest[k] in multiset(l[1..]);
          var j :| 0 <= j < |l[1..]| && l[1..][j] == rest[k];
          assert l[j + 1] == rest[k];
        }
      }
      var r := [l[0]] + rest;
      assert forall k :: 0 < k < |r| ==> r[k] == rest[k - 1];
    }
  }

  /** `sorted(s, key=last_used_time, reverse=True)`: the items, most
      recently used first; a permutation of the input. */
  function SortByRecency(s: seq<Item>, t: map<string, int>): (r: seq<Item>)
    ensures multiset(r) == multiset(s)
  {
    if s == [] then []
    else
      assert s == [s[0]] + s[1..];
      Insert(s[0], SortByRecency(s[1..], t), t)
  }

  /** The sorted items are in non-increasing order of last-used time. */
  lemma {:induction false} SortIsOrdered(s: seq<Item>, t: map<string, int>)
    ensures NonIncreasing(SortByRecency(s, t), t)
  {
    if s != [] {
      SortIsOrdered(s[1..], t);
      InsertKeepsOrder(s[0], SortByRecency(s[1..], t), t);
    }
  }

  /** The items last used at time `w`, in their order. */
  function UsedAt(l: seq<Item>, t: map<string, int>, w: int): seq<Item>
  {
    if l == [] then []
    else (if LastUsedTime(t, l[0]) == w then [l[0]] else []) + UsedAt(l[1..], t, w)
  }

  lemma {:induction false} InsertUsedAt(x: Item, l: seq<Item>, t: map<string, int>, w: int)
    ensures UsedAt(Insert(x, l, t), t, w) == (if LastUsedTime(t, x) == w then [x] else []) + UsedAt(l, t, w)
  {
    if l == [] || LastUsedTime(t, l[0]) <= LastUsedTime(t, x) {
      assert ([x] + l)[1..] == l;
    } else {
      var rest := Insert(x, l[1..], t);
      assert ([l[0]] + rest)[1..] == rest;
      InsertUsedAt(x, l[1..], t, w);
    }
  }

  /** The sort is stable: items used at the same time keep the order
      they have in the store. */
  lemma {:induction false} SortIsStable(s: seq<Item>, t: map<string, int>, w: int)
    ensures UsedAt(SortByRecency(s, t), t, w) == UsedAt(s, t, w)
  {
    if s != [] {
      SortIsStable(s[1..], t, w);
      InsertUsedAt(s[0], SortByRecency(s[1..], t), t, w);
    }
  }

  /** With no schema ever used, the menu keeps the store's order. */
  lemma {:induction false} NeverUsedKeepsOrder(s: seq<Item>)
    ensures SortByRecency(s, map[]) == s
  {
    if s != [] {
      NeverUsedKeepsOrder(s[1..]);
      assert s == [s[0]] + s[1..];
    }
  }

  /** A schema chosen at a time later than every recorded time (and later
      than the default 0) heads the next menu. */
  lemma RecentlyChosenFirst(s: seq<Item>, t: map<string, int>, key: string, now: int)
    requires exists x :: x in s && x.0 == key
    requires now > 0 && forall k :: k in t ==> t[k] < now
    ensures SortByRecency(s, t[key := now]) != [] && SortByRecency(s, t[key := now])[0].0 == key
  {
    var t' := t[key := now];
    var r := SortByRecency(s, t');
    SortIsOrdered(s, t');
    var x :| x in s && x.0 == key;
    assert x in multiset(r);
    var i :| 0 <= i < |r| && r[i] == x;
    assert LastUsedTime(t', r[0]) >= LastUsedTime(t', r[i]) == now;
    assert r[0] in multiset(s);
  }

  /** The entry of a stored item: `(display_name, schema_key)`. */
  function EntryOf(x: Item): SchemaEntry
  {
    SchemaEntry(x.1, x.0)
  }

  /** `[(x[1], x[0]) for x in ...]`: the menu entries of the items. */
  function Menu(s: seq<Item>): (m: seq<SchemaEntry>)
    ensures |m| == |s|
  {
    if s == [] then [] else [EntryOf(s[0])] + Menu(s[1..])
  }

  /** Entry `i` of the menu shows item `i`, its pair order swapped. */
  lemma {:induction false} MenuAt(s: seq<Item>, i: nat)
    requires i < |s|
    ensures Menu(s)[i] == SchemaEntry(s[i].1, s[i].0)
  {
    if i > 0 {
      MenuAt(s[1..], i - 1);
    }
  }

  /** The schema keys of the menu, in menu order. */
  function MenuKeys(m: seq<SchemaEntry>): seq<string>
  {
    seq(|m|, i requires 0 <= i < |m| => m[i].key)
  }

  lemma {:induction false} InsertMenu(x: Item, l: seq<Item>, t: map<string, int>)
    ensures multiset(Menu(Insert(x, l, t))) == multiset(Menu(l)) + multiset{EntryOf(x)}
  {
    if l == [] || LastUsedTime(t, l[0]) <= LastUsedTime(t, x) {
      assert ([x] + l)[1..] == l;
    } else {
      var rest := Insert(x, l[1..], t);
      assert ([l[0]] + rest)[1..] == rest;
      InsertMenu(x, l[1..], t);
    }
  }

  /** The schema list holds exactly the stored schemas as
      `(display_name, schema_key)` entries, each as often as it is stored. */
  lemma {:induction false} MenuIsPermutation(s: seq<Item>, t: map<string, int>)
    ensures multiset(Menu(SortByRecency(s, t))) == multiset(Menu(s))
  {
    if s != [] {
      MenuIsPermutation(s[1..], t);
      InsertMenu(s[0], SortByRecency(s[1..], t), t);
    }
  }

  /** `s.index(name)`: the first position holding `name`. */
  function IndexOf(keys: seq<string>, name: string): (i: nat)
    requires name in keys
    ensures i < |keys| && keys[i] == name
    ensures forall j :: 0 <= j < i ==> keys[j] != name
  {
    if keys[0] == name then 0 else 1 + IndexOf(keys[1..], name)
  }

  /** The choice rule of `choose`: the first entry whose key is the given
      (non-empty) name, else the first entry, else -1 when there is none. */
  function ResolveChoice(keys: seq<string>, name: Option<string>): (c: int)
    ensures -1 <= c < |keys|
    ensures c == -1 <==> keys == []
    ensures name.Some? && name.value != "" && name.value in keys ==>
              keys[c] == name.value && forall j :: 0 <= j < c ==> keys[j] != name.value
    ensures !(name.Some? && name.value != "" && name.value in keys) && keys != [] ==> c == 0
  {
    if name.Some? && name.value != "" && name.value in keys then IndexOf(keys, name.value)
    else if |keys| > 0 then 0
    else -1
  }

  /** The status shown when there is no schema to open (無方案). */
  const NoSchema: string := "\U{7121}\U{65B9}\U{6848}"

  /** The status shown above the schema menu (方案選單). */
  const MenuTitle: string := "\U{65B9}\U{6848}\U{9078}\U{55AE}"

  /** The modifiers that make the menu ignore a key. */
  const MenuIgnoreMask: bv32 := Keys.ShiftMask | Keys.HotkeyMask

  class SchemaChooser {
    const ui: Frontend
    const store: Store
    const registry: ParserRegistry
    const logic: ModelLogic
    const decode: int -> string
    var active: bool
    var schemaList: seq<SchemaEntry>
    var engine: Engine?

    /** The chooser invariant: its engine, when it has one, is a valid
        engine on the same frontend. */
    ghost predicate Valid()
      reads this, engine, if engine != null then {engine.ctx} else {}
    {
      logic.Sound() && (engine != null ==> engine.Valid() && engine.ui == ui)
    }

    ghost function EngineRepr(): set<object>
      reads this
    {
      if engine != null then engine.Repr() else {}
    }

    /** The menu `__load_schema_list` computes from the store. */
    ghost function StoredMenu(): seq<SchemaEntry>
      reads store
    {
      Menu(SortByRecency(store.schemas, Tabulate(store.lastUsed)))
    }

    /** The schema `choose` opens for key `key`. */
    function SchemaFor(key: string): Schema
    {
      OpenSchema(key, store.configOf(key))
    }

    /** The state `__reset` leaves: the menu is active, empty, and there is no engine. */
    predicate IsReset()
      reads this
    {
      active && schemaList == [] && engine == null
    }

    /** `__init__` up to the choice: reset, then load the schema list. */
    constructor (ui: Frontend, store: Store, registry: ParserRegistry, logic: ModelLogic, decode: int -> string)
      requires logic.Sound()
      ensures Valid() && active && engine == null && schemaList == StoredMenu()
      ensures this.ui == ui && this.store == store && this.registry == registry
      ensures this.logic == logic && this.decode == decode
    {
      this.ui, this.store, this.registry, this.logic, this.decode := ui, store, registry, logic, decode;
      active, schemaList, engine := true, [], null;
      new;
      LoadSchemaList();
    }

    /** `SchemaChooser(frontend, schema_name)`: build, then choose. */
    static method Start(ui: Frontend, store: Store, registry: ParserRegistry, logic: ModelLogic,
                        decode: int -> string, name: Option<string>, now: int)
      returns (r: Outcome<SchemaChooser>)
      requires logic.Sound()
      modifies ui, store
      ensures store.schemas == old(store.schemas)
      ensures r.Return? ==> fresh(r.value) && r.value.Valid() && r.value.ui == ui && r.value.store == store
                            && r.value.registry == registry
      ensures var menu := Menu(SortByRecency(old(store.schemas), Tabulate(old(store.lastUsed))));
              var c := ResolveChoice(MenuKeys(menu), name);
              && (c == -1 ==> r.Return? && r.value.IsReset() && store.lastUsed == old(store.lastUsed)
                              && ui.trace == old(ui.trace) + [Event.UpdateAux(NoSchema)])
              && (c >= 0 ==>
                    var key := MenuKeys(menu)[c];
                    && (r.Raise? <==> registry.GetParserClass(OpenSchema(key, store.configOf(key)).parserName).Raise?)
                    && (r.Raise? ==> r.error == KeyError && ui.trace == old(ui.trace))
                    && Tabulate(store.lastUsed) == Tabulate(old(store.lastUsed))[key := now]
                    && (r.Return? ==> !r.value.active && r.value.schemaList == [] && r.value.engine != null
                                      && r.value.engine.schema == OpenSchema(key, store.configOf(key))
                                      && r.value.engine.ctx.Canonical() && r.value.engine.punct == []
                                      && ui.trace == old(ui.trace) + EmptyScreen))
    {
      var chooser := new SchemaChooser(ui, store, registry, logic, decode);
      var chosen := chooser.Choose(name, now);
      if chosen.Raise? {
        return Raise(chosen.error);
      }
      r := Return(chooser);
    }

    /** `__reset`. */
    method Reset()
      modifies this
      ensures IsReset()
    {
      active, schemaList, engine := true, [], null;
    }

    /** `__load_schema_list`: the stored schemas as menu entries, most
        recently used first. */
    method LoadSchemaList()
      modifies this`schemaList
      ensures schemaList == StoredMenu()
    {
      var t := LastUsedTable(store.lastUsed);
      schemaList := Menu(SortByRecency(store.schemas, t));
    }

    /** `choose`: resolve the name against the current list and open that
        schema, recording the time it was chosen; with nothing to choose,
        show the status and reset. A schema whose parser is not registered
        raises KeyError once the menu is closed; the old engine stays. */
    method Choose(name: Option<string>, now: int) returns (r: Outcome<()>)
      requires Valid()
      modifies this, ui, store
      ensures Valid() && store.schemas == old(store.schemas)
      ensures var keys := MenuKeys(old(schemaList));
              var c := ResolveChoice(keys, name);
              && (c == -1 ==>
                    && r == Return(()) && IsReset() && store.lastUsed == old(store.lastUsed)
                    && ui.trace == old(ui.trace) + [Event.UpdateAux(NoSchema)])
              && (c >= 0 ==>
                    && !active && schemaList == []
                    && Tabulate(store.lastUsed) == Tabulate(old(store.lastUsed))[keys[c] := now]
                    && (r.Raise? <==> registry.GetParserClass(SchemaFor(keys[c]).parserName).Raise?)
                    && (r.Raise? ==> r.error == KeyError && engine == old(engine) && ui.trace == old(ui.trace))
                    && (r.Return? ==>
                          && engine != null && fresh(engine.Repr()) && engine.schema == SchemaFor(keys[c])
                          && engine.ctx.Canonical() && engine.punct == []
                          && ui.trace == old(ui.trace) + EmptyScreen))
    {
      var keys := MenuKeys(schemaList);
      var c := ResolveChoice(keys, name);
      if c == -1 {
        ui.UpdateAux(NoSchema);
        Reset();
        return Return(());
      }
      store.UpdateLastUsed(keys[c], now);
      active := false;
      schemaList := [];
      var made := Engine.Open(ui, registry, store.configOf(keys[c]), logic, decode, keys[c]);
      if made.Raise? {
        return Raise(made.error);
      }
      engine := made.value;
      r := Return(());
    }

    /** `__activate`: open the menu on a freshly loaded list. */
    method Activate()
      modifies this`active, this`schemaList, ui
      ensures active && schemaList == StoredMenu()
      ensures ui.trace == old(ui.trace) + [Event.UpdateAux(MenuTitle), Event.UpdateSchemaMenu(schemaList)]
    {
      active := true;
      LoadSchemaList();
      ui.UpdateAux(MenuTitle);
      ui.UpdateSchemaMenu(schemaList);
    }

    /** `process_key_event`: while the menu is closed, Control+` opens it
        and every other key goes to the engine; while it is open, the menu
        handles the key. */
    method ProcessKeyEvent(keycode: int, mask: bv32, coined: bool, now: int) returns (r: Outcome<bool>)
      requires Valid() && (active || engine != null)
      modifies this, ui, store, EngineRepr()
      ensures Valid()
      // Menu closed.
      ensures !old(active) && keycode == Keys.Grave && mask & Keys.ControlMask != 0 ==>
                && r == Return(true) && active && schemaList == StoredMenu() && engine == old(engine)
                && unchanged(store) && unchanged(old(EngineRepr()))
                && ui.trace == old(ui.trace) + [Event.UpdateAux(MenuTitle), Event.UpdateSchemaMenu(schemaList)]
      ensures !old(active) && !(keycode == Keys.Grave && mask & Keys.ControlMask != 0) ==>
                && !active && schemaList == old(schemaList) && engine == old(engine)
                && unchanged(store) && old(ui.trace) <= ui.trace
                && (Screen(mask).None? ==> r == Return(false) && ui.trace == old(ui.trace))
      // Menu open.
      ensures old(active) && mask & MenuIgnoreMask != 0 ==>
                r == Return(false) && unchanged(this, store) && unchanged(old(EngineRepr())) && ui.trace == old(ui.trace)
      ensures old(active) && mask & MenuIgnoreMask == 0 && mask & Keys.ReleaseMask != 0 ==>
                r == Return(true) && unchanged(this, store) && unchanged(old(EngineRepr())) && ui.trace == old(ui.trace)
      ensures old(active) && mask & (MenuIgnoreMask | Keys.ReleaseMask) == 0 ==>
                && (keycode == Keys.Escape ==>
                      && r == Return(true) && !active && schemaList == old(schemaList) && engine == old(engine)
                      && unchanged(store) && unchanged(old(EngineRepr()))
                      && ui.trace == old(ui.trace) + (if engine == null then [] else old(engine.ctx.View())))
                && (Keys.PagesUp(keycode) ==>
                      r == Return(true) && unchanged(this, store) && unchanged(old(EngineRepr())) && ui.trace == old(ui.trace) + [Event.PageUp])
                && (Keys.PagesDown(keycode) ==>
                      r == Return(true) && unchanged(this, store) && unchanged(old(EngineRepr())) && ui.trace == old(ui.trace) + [Event.PageDown])
                && (Keys.IsDigit(keycode) && ui.candidateIndex(keycode - Keys.Digit1) >= |old(schemaList)| ==>
                      r == Return(true) && unchanged(this, store) && unchanged(old(EngineRepr())) && ui.trace == old(ui.trace))
                && (keycode != Keys.Escape && !Keys.PagesUp(keycode) && !Keys.PagesDown(keycode)
                    && !Keys.IsDigit(keycode) ==>
                      r == Return(true) && unchanged(this, store) && unchanged(old(EngineRepr())) && ui.trace == old(ui.trace))
      // A digit on the menu opens the schema it points at.
      ensures old(active) && mask & (MenuIgnoreMask | Keys.ReleaseMask) == 0 && Keys.IsDigit(keycode)
              && ui.candidateIndex(keycode - Keys.Digit1) < |old(schemaList)| ==>
                var keys := MenuKeys(old(schemaList));
                var key := keys[ResolveChoice(keys, Some(old(schemaList)[ui.candidateIndex(keycode - Keys.Digit1)].key))];
                && !active && schemaList == [] && store.schemas == old(store.schemas)
                && Tabulate(store.lastUsed) == Tabulate(old(store.lastUsed))[key := now]
                && (r.Raise? <==> registry.GetParserClass(SchemaFor(key).parserName).Raise?)
                && (r.Raise? ==> r.error == KeyError && engine == old(engine) && unchanged(old(EngineRepr()))
                                  && ui.trace == old(ui.trace))
                && (r.Return? ==>
                      && r.value && engine != null && fresh(engine.Repr()) && engine.schema == SchemaFor(key)
                      && engine.ctx.Canonical() && engine.punct == []
                      && ui.trace == old(ui.trace) + EmptyScreen)
    {
      if !active {
        if keycode == Keys.Grave && mask & Keys.ControlMask != 0 {
          Activate();
          return Return(true);
        }
        r := engine.ProcessKeyEvent(keycode, mask, coined);
        return;
      }
      r := MenuKey(keycode, mask, now);
    }

    /** The open menu's part of `process_key_event`. */
    method MenuKey(keycode: int, mask: bv32, now: int) returns (r: Outcome<bool>)
      requires Valid() && active
      modifies this, ui, store
      ensures Valid()
      // Menu open.
      ensures mask & MenuIgnoreMask != 0 ==>
                r == Return(false) && unchanged(this, store) && unchanged(old(EngineRepr())) && ui.trace == old(ui.trace)
      ensures mask & MenuIgnoreMask == 0 && mask & Keys.ReleaseMask != 0 ==>
                r == Return(true) && unchanged(this, store) && unchanged(old(EngineRepr())) && ui.trace == old(ui.trace)
      ensures mask & (MenuIgnoreMask | Keys.ReleaseMask) == 0 ==>
                && (keycode == Keys.Escape ==>
                      && r == Return(true) && !active && schemaList == old(schemaList) && engine == old(engine)
                      && unchanged(store) && unchanged(old(EngineRepr()))
                      && ui.trace == old(ui.trace) + (if engine == null then [] else old(engine.ctx.View())))
                && (Keys.PagesUp(keycode) ==>
                      r == Return(true) && unchanged(this, store) && unchanged(old(EngineRepr())) && ui.trace == old(ui.trace) + [Event.PageUp])
                && (Keys.PagesDown(keycode) ==>
                      r == Return(true) && unchanged(this, store) && unchanged(old(EngineRepr())) && ui.trace == old(ui.trace) + [Event.PageDown])
                && (Keys.IsDigit(keycode) && ui.candidateIndex(keycode - Keys.Digit1) >= |old(schemaList)| ==>
                      r == Return(true) && unchanged(this, store) && unchanged(old(EngineRepr())) && ui.trace == old(ui.trace))
                && (keycode != Keys.Escape && !Keys.PagesUp(keycode) && !Keys.PagesDown(keycode)
                    && !Keys.IsDigit(keycode) ==>
                      r == Return(true) && unchanged(this, store) && unchanged(old(EngineRepr())) && ui.trace == old(ui.trace))
      // A digit on the menu opens the schema it points at.
      ensures mask & (MenuIgnoreMask | Keys.ReleaseMask) == 0 && Keys.IsDigit(keycode)
              && ui.candidateIndex(keycode - Keys.Digit1) < |old(schemaList)| ==>
                var keys := MenuKeys(old(schemaList));
                var key := keys[ResolveChoice(keys, Some(old(schemaList)[ui.candidateIndex(keycode - Keys.Digit1)].key))];
                && !active && schemaList == [] && store.schemas == old(store.schemas)
                && Tabulate(store.lastUsed) == Tabulate(old(store.lastUsed))[key := now]
                && (r.Raise? <==> registry.GetParserClass(SchemaFor(key).parserName).Raise?)
                && (r.Raise? ==> r.error == KeyError && engine == old(engine) && unchanged(old(EngineRepr()))
                                  && ui.trace == old(ui.trace))
                && (r.Return? ==>
                      && r.value && engine != null && fresh(engine.Repr()) && engine.schema == SchemaFor(key)
                      && engine.ctx.Canonical() && engine.punct == []
                      && ui.trace == old(ui.trace) + EmptyScreen)
    {
      if mask & MenuIgnoreMask != 0 {
        return Return(false);
      }
      if mask & Keys.ReleaseMask != 0 {
        return Return(true);
      }
      if keycode == Keys.Escape {
        active := false;
        if engine != null {
          engine.UpdateUi();
        }
        return Return(true);
      }
      if Keys.PagesUp(keycode) {
        ui.PageUp();
        return Return(true);
      }
      if Keys.PagesDown(keycode) {
        ui.PageDown();
        return Return(true);
      }
      if Keys.IsDigit(keycode) {
        var index := ui.candidateIndex(keycode - Keys.Digit1);
        if index < |schemaList| {
          r := OpenEntry(index, now);
          return;
        }
        return Return(true);
      }
      return Return(true);
    }

    /** A digit on the open menu that points inside the list: `choose` the
        key of the entry it points at. */
    method OpenEntry(index: nat, now: int) returns (r: Outcome<bool>)
      requires Valid() && index < |schemaList|
      modifies this, ui, store
      ensures Valid()
      ensures var keys := MenuKeys(old(schemaList));
              var key := keys[ResolveChoice(keys, Some(old(schemaList)[index].key))];
              && !active && schemaList == [] && store.schemas == old(store.schemas)
              && Tabulate(store.lastUsed) == Tabulate(old(store.lastUsed))[key := now]
              && (r.Raise? <==> registry.GetParserClass(SchemaFor(key).parserName).Raise?)
              && (r.Raise? ==> r.error == KeyError && engine == old(engine) && ui.trace == old(ui.trace))
              && (r.Return? ==>
                    && r.value && engine != null && fresh(engine.Repr()) && engine.schema == SchemaFor(key)
                    && engine.ctx.Canonical() && engine.punct == []
                    && ui.trace == old(ui.trace) + EmptyScreen)
    {
      var chosen := Choose(Some(schemaList[index].key), now);
      if chosen.Raise? {
        return Raise(chosen.error);
      }
      r := Return(true);
    }
  }

  /** Choosing the (non-empty) key of menu entry `index` opens that key. */
  lemma FirstMatchIsEntry(m: seq<SchemaEntry>, index: nat)
    requires index < |m| && m[index].key != ""
    ensures ResolveChoice(MenuKeys(m), Some(m[index].key)) >= 0
    ensures MenuKeys(m)[ResolveChoice(MenuKeys(m), Some(m[index].key))] == m[index].key
  {
    assert MenuKeys(m)[index] == m[index].key;
  }
}
