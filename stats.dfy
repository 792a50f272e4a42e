/**
 * The publish/subscribe statistics aggregator of src/util/pubSubStats.js:
 * a process-wide table, keyed by event type, of counters that the trackers
 * increment and that `log` prints one line per event type and then discards.
 * Object properties keep their insertion order, so a table and each of its
 * rows record that order beside their values. Clock readings and toggle
 * states are parameters.
 */
module Stats {
  import opened Results
  import opened JsText
  import Entities

  /** A JavaScript object's own properties: their names in insertion order
      and their values. */
  datatype Props<V> = Props(order: seq<string>, values: map<string, V>)

  /** One event type's counters. */
  type Row = Props<int>

  /** Every event type's row. */
  type Table = Props<Row>

  /** No name is repeated. */
  predicate Distinct(names: seq<string>)
  {
    forall i, j :: 0 <= i < j < |names| ==> names[i] != names[j]
  }

  /** The order lists each property once, and only the properties there are. */
  ghost predicate WellFormed<V>(p: Props<V>)
  {
    Distinct(p.order) && forall name :: name in p.order <==> name in p.values
  }

  /** A well-formed table of well-formed rows. */
  ghost predicate TableOk(t: Table)
  {
    WellFormed(t) && forall e :: e in t.values ==> WellFormed(t.values[e])
  }

  function Empty<V>(): Props<V>
  {
    Props([], map[])
  }

  /** `o[name] = v`: an existing property keeps its place, a new one goes last. */
  function Put<V>(p: Props<V>, name: string, v: V): (r: Props<V>)
    ensures WellFormed(p) ==> WellFormed(r)
  {
    Props(if name in p.values then p.order else p.order + [name], p.values[name := v])
  }

  /** The table, or an empty one when the global does not exist yet. */
  function TableOf(table: Option<Table>): Table
  {
    if table.Some? then table.value else Empty()
  }

  /** An event type's row, or an empty one. */
  function RowOf(t: Table, evt: string): Row
  {
    if evt in t.values then t.values[evt] else Empty()
  }

  /** A counter's value, reading absent tables, rows and keys as 0. */
  function Counter(table: Option<Table>, evt: string, key: string): int
  {
    var row := RowOf(TableOf(table), evt);
    if key in row.values then row.values[key] else 0
  }

  /** The order of a table after `evt` is given a row. */
  function OrderWith(t: Table, evt: string): seq<string>
  {
    if evt in t.values then t.order else t.order + [evt]
  }

  /**
   * initKeys: create the table, the event type's row and the key (at 0) where
   * missing; a key whose value is falsy, that is 0, is set to 0 again. No
   * counter changes value, and no other row changes at all.
   */
  function InitKeysSpec(table: Option<Table>, evt: string, key: string): (t: Table)
    ensures evt in t.values && key in t.values[evt].values
    ensures forall e, k :: Counter(Some(t), e, k) == Counter(table, e, k)
    ensures forall e :: e != evt ==> RowOf(t, e) == RowOf(TableOf(table), e)
    ensures t.order == OrderWith(TableOf(table), evt)
    ensures RowOf(t, evt).order == if key in RowOf(TableOf(table), evt).values then RowOf(TableOf(table), evt).order
      else RowOf(TableOf(table), evt).order + [key]
    ensures RowOf(t, evt).values.Keys == RowOf(TableOf(table), evt).values.Keys + {key}
    ensures table.None? || TableOk(table.value) ==> TableOk(t)
  {
    var base := TableOf(table);
    var withRow := if evt in base.values then base else Put(base, evt, Empty());
    var row := withRow.values[evt];
    if key in row.values && row.values[key] != 0 then withRow else Put(withRow, evt, Put(row, key, 0))
  }

  /** Set one counter, creating its row and key where missing. */
  function Assign(t: Table, evt: string, key: string, v: int): (r: Table)
    ensures Counter(Some(r), evt, key) == v
    ensures forall e, k :: (e != evt || k != key) ==> Counter(Some(r), e, k) == Counter(Some(t), e, k)
    ensures forall e :: e != evt ==> RowOf(r, e) == RowOf(t, e)
    ensures r.order == OrderWith(t, evt)
    ensures key in RowOf(t, evt).values ==> RowOf(r, evt).order == RowOf(t, evt).order
    ensures RowOf(r, evt).values.Keys == RowOf(t, evt).values.Keys + {key}
    ensures TableOk(t) ==> TableOk(r)
  {
    Put(t, evt, Put(RowOf(t, evt), key, v))
  }

  /** Add `delta` to one counter. */
  function Bump(t: Table, evt: string, key: string, delta: int): (r: Table)
    ensures Counter(Some(r), evt, key) == Counter(Some(t), evt, key) + delta
    ensures forall e, k :: (e != evt || k != key) ==> Counter(Some(r), e, k) == Counter(Some(t), e, k)
    ensures forall e :: e != evt ==> RowOf(r, e) == RowOf(t, e)
    ensures r.order == OrderWith(t, evt)
    ensures key in RowOf(t, evt).values ==> RowOf(r, evt).order == RowOf(t, evt).order
    ensures RowOf(r, evt).values.Keys == RowOf(t, evt).values.Keys + {key}
    ensures TableOk(t) ==> TableOk(r)
  {
    Assign(t, evt, key, Counter(Some(t), evt, key) + delta)
  }

  /** The names of a tracker's count and time keys. */
  datatype StatKeys = StatKeys(count: string, time: string)

  const SubscribeKeys: StatKeys := StatKeys("subCount", "subTime")
  const EmitKeys: StatKeys := StatKeys("emitCount", "emitTime")
  const ClientKeys: StatKeys := StatKeys("clientCount", "clientTime")

  /** The row of connection counters. */
  const ConnectionsRow: string := "connections"
  const ConnectCount: string := "connectCount"
  const DisconnectCount: string := "disconnectCount"
  const AuthErrorCount: string := "authErrorCount"
  const ConnectedSockets: string := "connectedSockets"

  /** The time since the object's `updatedAt`, else since its `new.updatedAt`, else 0. */
  function Elapsed(obj: Entities.Obj, time: int): (elapsed: int)
    ensures obj.updatedAt.Some? ==> elapsed == time - obj.updatedAt.value
    ensures obj.updatedAt.None? && obj.newEntity.Some? && obj.newEntity.value.updatedAt.Some? ==>
      elapsed == time - obj.newEntity.value.updatedAt.value
    ensures obj.updatedAt.None? && (obj.newEntity.None? || obj.newEntity.value.updatedAt.None?) ==> elapsed == 0
  {
    if obj.updatedAt.Some? then time - obj.updatedAt.value
    else if obj.newEntity.Some? && obj.newEntity.value.updatedAt.Some? then time - obj.newEntity.value.updatedAt.value
    else 0
  }

  /** track's argument check: a non-empty event name and an object. */
  predicate Trackable(evt: Option<string>, obj: Option<Entities.Obj>)
  {
    evt.Some? && evt.value != "" && obj.Some?
  }

  /**
   * track: for a valid event and object, initialize both keys and then add 1
   * to the count key and the elapsed time to the time key; otherwise nothing.
   */
  function TrackTable(table: Option<Table>, evt: Option<string>, obj: Option<Entities.Obj>,
    time: int, keys: StatKeys): (r: Option<Table>)
    ensures !Trackable(evt, obj) ==> r == table
    ensures Trackable(evt, obj) ==> r.Some? && evt.value in r.value.values
    ensures Trackable(evt, obj) ==> r.value.order == OrderWith(TableOf(table), evt.value)
    ensures Trackable(evt, obj) && (table.None? || TableOk(table.value)) ==> TableOk(r.value)
  {
    if !Trackable(evt, obj) then table
    else
      var t := InitKeysSpec(Some(InitKeysSpec(table, evt.value, keys.count)), evt.value, keys.time);
      Some(Bump(Bump(t, evt.value, keys.count, 1), evt.value, keys.time, Elapsed(obj.value, time)))
  }

  /**
   * A valid track adds exactly 1 to the event's count key and the elapsed
   * time to its time key, and changes no other counter; the event type is
   * appended to the table's order if it was new.
   */
  lemma TrackAddsOne(table: Option<Table>, evt: string, obj: Entities.Obj, time: int, keys: StatKeys)
    requires evt != "" && keys.count != keys.time
    ensures var r := TrackTable(table, Some(evt), Some(obj), time, keys);
      && Counter(r, evt, keys.count) == Counter(table, evt, keys.count) + 1
      && Counter(r, evt, keys.time) == Counter(table, evt, keys.time) + Elapsed(obj, time)
      && (forall e, k :: (e != evt || (k != keys.count && k != keys.time)) ==> Counter(r, e, k) == Counter(table, e, k))
      && r.value.order == OrderWith(TableOf(table), evt)
  {
    var t0 := InitKeysSpec(table, evt, keys.count);
    var t := InitKeysSpec(Some(t0), evt, keys.time);
    var t1 := Bump(t, evt, keys.count, 1);
    var t2 := Bump(t1, evt, keys.time, Elapsed(obj, time));
    assert Counter(Some(t2), evt, keys.count) == Counter(Some(t1), evt, keys.count);
  }

  /** Initializing two keys of a row: both are there afterwards, appended in
      turn to a row that had neither; other rows are unchanged. */
  lemma InitTwoKeys(table: Option<Table>, evt: string, first: string, second: string)
    requires first != second
    ensures var before := RowOf(TableOf(table), evt);
      var t := InitKeysSpec(Some(InitKeysSpec(table, evt, first)), evt, second);
      && RowOf(t, evt).values.Keys == before.values.Keys + {first, second}
      && (first !in before.values && second !in before.values ==> RowOf(t, evt).order == before.order + [first, second])
      && (first in before.values && second in before.values ==> RowOf(t, evt).order == before.order)
      && forall e :: e != evt ==> RowOf(t, e) == RowOf(TableOf(table), e)
  {
    var before := RowOf(TableOf(table), evt);
    var t0 := InitKeysSpec(table, evt, first);
    var t := InitKeysSpec(Some(t0), evt, second);
    TwoInits(before, RowOf(t0, evt), RowOf(t, evt), first, second);
  }

  /** Two keys initialized in turn, as seen in the row: the keys grow by both,
      and the order by both when both are new. */
  lemma TwoInits(before: Row, mid: Row, after: Row, first: string, second: string)
    requires first != second
    requires mid.values.Keys == before.values.Keys + {first}
    requires mid.order == if first in before.values then before.order else before.order + [first]
    requires after.values.Keys == mid.values.Keys + {second}
    requires after.order == if second in mid.values then mid.order else mid.order + [second]
    ensures after.values.Keys == before.values.Keys + {first, second}
    ensures first !in before.values && second !in before.values ==> after.order == before.order + [first, second]
    ensures first in before.values && second in before.values ==> after.order == before.order
  {
    if first !in before.values && second !in before.values {
      assert second !in mid.values;
      AppendTwo(before.order, first, second);
    }
  }

  lemma AppendTwo<T>(s: seq<T>, a: T, b: T)
    ensures s + [a] + [b] == s + [a, b]
  {
  }

  /** Bumping two keys a row already has keeps the row's keys and order, and every other row. */
  lemma BumpTwo(t: Table, evt: string, first: string, second: string, d1: int, d2: int)
    requires first in RowOf(t, evt).values && second in RowOf(t, evt).values
    ensures var r := Bump(Bump(t, evt, first, d1), evt, second, d2);
      && RowOf(r, evt).values.Keys == RowOf(t, evt).values.Keys
      && RowOf(r, evt).order == RowOf(t, evt).order
      && forall e :: e != evt ==> RowOf(r, e) == RowOf(t, e)
  {
  }

  /**
   * A valid track gives the event's row both keys; a row that had neither
   * gets the count key and then the time key appended, a row that had both
   * keeps its order; every other row is unchanged.
   */
  lemma TrackRow(table: Option<Table>, evt: string, obj: Entities.Obj, time: int, keys: StatKeys)
    requires evt != "" && keys.count != keys.time
    ensures var before := RowOf(TableOf(table), evt);
      var r := TrackTable(table, Some(evt), Some(obj), time, keys).value;
      && RowOf(r, evt).values.Keys == before.values.Keys + {keys.count, keys.time}
      && (keys.count !in before.values && keys.time !in before.values ==>
            RowOf(r, evt).order == before.order + [keys.count, keys.time])
      && (keys.count in before.values && keys.time in before.values ==> RowOf(r, evt).order == before.order)
      && forall e :: e != evt ==> RowOf(r, e) == RowOf(TableOf(table), e)
  {
    var t := InitKeysSpec(Some(InitKeysSpec(table, evt, keys.count)), evt, keys.time);
    var r := TrackTable(table, Some(evt), Some(obj), time, keys).value;
    assert r == Bump(Bump(t, evt, keys.count, 1), evt, keys.time, Elapsed(obj, time));
    InitTwoKeys(table, evt, keys.count, keys.time);
    BumpTwo(t, evt, keys.count, keys.time, 1, Elapsed(obj, time));
  }

  /** N valid tracks of one event, one after another. */
  function TrackAll(table: Option<Table>, evt: string, objs: seq<Entities.Obj>, time: int, keys: StatKeys): Option<Table>
    decreases |objs|
  {
    if objs == [] then table
    else TrackAll(TrackTable(table, Some(evt), Some(objs[0]), time, keys), evt, objs[1..], time, keys)
  }

  /** N valid tracks of an event give it count N more, and leave the other event types alone. */
  lemma {:induction false} TrackCountsEach(table: Option<Table>, evt: string, objs: seq<Entities.Obj>,
    time: int, keys: StatKeys)
    requires evt != "" && keys.count != keys.time
    ensures Counter(TrackAll(table, evt, objs, time, keys), evt, keys.count) == Counter(table, evt, keys.count) + |objs|
    ensures forall e, k :: e != evt ==> Counter(TrackAll(table, evt, objs, time, keys), e, k) == Counter(table, e, k)
    decreases |objs|
  {
    if objs != [] {
      var next := TrackTable(table, Some(evt), Some(objs[0]), time, keys);
      TrackAddsOne(table, evt, objs[0], time, keys);
      TrackCountsEach(next, evt, objs[1..], time, keys);
    }
  }

  /** trackConnections: initialize the connection counter, then add 1 to it. */
  function TrackConnectionsTable(table: Option<Table>, count: string): (r: Table)
    ensures Counter(Some(r), ConnectionsRow, count) == Counter(table, ConnectionsRow, count) + 1
    ensures forall e, k :: (e != ConnectionsRow || k != count) ==> Counter(Some(r), e, k) == Counter(table, e, k)
  {
    Bump(InitKeysSpec(table, ConnectionsRow, count), ConnectionsRow, count, 1)
  }

  /** The table `log` prints: with a socket server and connection stats on,
      the `connections` row first gets the number of connected sockets. */
  function Snapshot(table: Option<Table>, connectedSockets: Option<nat>, connectionStats: bool): (r: Option<Table>)
    ensures connectedSockets.Some? && connectionStats ==>
      && r.Some?
      && Counter(r, ConnectionsRow, ConnectedSockets) == connectedSockets.value
      && forall e, k :: (e != ConnectionsRow || k != ConnectedSockets) ==> Counter(r, e, k) == Counter(table, e, k)
    ensures !(connectedSockets.Some? && connectionStats) ==> r == table
  {
    if connectedSockets.Some? && connectionStats then
      Some(Assign(InitKeysSpec(table, ConnectionsRow, ConnectedSockets), ConnectionsRow, ConnectedSockets,
        connectedSockets.value))
    else table
  }

  /** One entry of a log line. */
  function Field(name: string, value: string): string
  {
    name + "=" + value + " "
  }

  /** printActivityLogString: `name=value ` for every entry, in order. */
  function ActivityLogString(entries: seq<(string, string)>): string
  {
    if entries == [] then ""
    else
      var last := entries[|entries| - 1];
      ActivityLogString(entries[..|entries| - 1]) + Field(last.0, last.1)
  }

  /** The log line of a concatenation is the concatenation of the log lines. */
  lemma {:induction false} ActivityLogStringConcat(a: seq<(string, string)>, b: seq<(string, string)>)
    ensures ActivityLogString(a + b) == ActivityLogString(a) + ActivityLogString(b)
    decreases |b|
  {
    if b == [] {
      assert a + b == a;
    } else {
      assert (a + b)[..|a + b| - 1] == a + b[..|b| - 1];
      ActivityLogStringConcat(a, b[..|b| - 1]);
    }
  }

  /** `Object.entries` of an object of printed values, in insertion order. */
  function Entries(order: seq<string>, values: map<string, string>): (entries: seq<(string, string)>)
    ensures |entries| == |order|
    ensures forall i :: 0 <= i < |order| ==> entries[i].0 == order[i]
  {
    if order == [] then []
    else
      var name := order[|order| - 1];
      Entries(order[..|order| - 1], values) + [(name, if name in values then values[name] else "undefined")]
  }

  /** Entries only read the values of the names listed. */
  lemma {:induction false} EntriesIgnoreOthers(order: seq<string>, values: map<string, string>, name: string, v: string)
    requires name !in order
    ensures Entries(order, values[name := v]) == Entries(order, values)
    decreases |order|
  {
    if order != [] {
      EntriesIgnoreOthers(order[..|order| - 1], values, name, v);
    }
  }

  /** A row's counters as printed: each value in decimal, in insertion order. */
  function Render(row: Row): (entries: seq<(string, string)>)
  {
    Entries(row.order, Printed(row))
  }

  /** A row's counters printed in decimal. */
  function Printed(row: Row): map<string, string>
  {
    map k | k in row.values :: IntToString(row.values[k])
  }

  /** `{ ...base, ...extra }`: each entry of `extra` overwrites or is appended. */
  function Spread(base: Props<string>, extra: seq<(string, string)>): Props<string>
    decreases |extra|
  {
    if extra == [] then base else Spread(Put(base, extra[0].0, extra[0].1), extra[1..])
  }

  /** The names of a list of entries. */
  function Names(entries: seq<(string, string)>): (names: seq<string>)
    ensures |names| == |entries|
    ensures forall i :: 0 <= i < |entries| ==> names[i] == entries[i].0
  {
    if entries == [] then [] else [entries[0].0] + Names(entries[1..])
  }

  /** Setting a new property appends its entry. */
  lemma PutFreshEntries(base: Props<string>, name: string, v: string)
    requires WellFormed(base) && name !in base.values
    ensures Entries(Put(base, name, v).order, Put(base, name, v).values) == Entries(base.order, base.values) + [(name, v)]
  {
    var next := Put(base, name, v);
    assert name !in base.order;
    EntriesIgnoreOthers(base.order, base.values, name, v);
    assert next.order[..|next.order| - 1] == base.order;
  }

  /** The names after the first are distinct, and none is the first. */
  lemma DistinctTail(extra: seq<(string, string)>)
    requires extra != [] && Distinct(Names(extra))
    ensures Distinct(Names(extra[1..]))
    ensures forall i :: 0 <= i < |extra[1..]| ==> extra[1..][i].0 != extra[0].0
  {
    forall i, j | 0 <= i < j < |extra[1..]|
      ensures Names(extra[1..])[i] != Names(extra[1..])[j]
    {
      assert Names(extra)[i + 1] != Names(extra)[j + 1];
    }
    forall i | 0 <= i < |extra[1..]|
      ensures extra[1..][i].0 != extra[0].0
    {
      assert Names(extra)[0] != Names(extra)[i + 1];
    }
  }

  /** Appending the first element and then the rest appends the whole. */
  lemma AppendFirst<T>(before: seq<T>, extra: seq<T>)
    requires extra != []
    ensures (before + [extra[0]]) + extra[1..] == before + extra
  {
    assert extra == [extra[0]] + extra[1..];
  }

  /** Spreading entries with new, distinct names appends them in order. */
  lemma {:induction false} SpreadFresh(base: Props<string>, extra: seq<(string, string)>)
    requires WellFormed(base)
    requires Distinct(Names(extra))
    requires forall i :: 0 <= i < |extra| ==> extra[i].0 !in base.values
    ensures Entries(Spread(base, extra).order, Spread(base, extra).values) == Entries(base.order, base.values) + extra
    decreases |extra|
  {
    if extra != [] {
      var next := Put(base, extra[0].0, extra[0].1);
      PutFreshEntries(base, extra[0].0, extra[0].1);
      DistinctTail(extra);
      var rest := extra[1..];
      assert extra == [extra[0]] + rest;
      assert forall i :: 0 <= i < |rest| ==> rest[i].0 !in next.values;
      SpreadFresh(next, rest);
      var before := Entries(base.order, base.values);
      assert Spread(base, extra) == Spread(next, rest);
      AppendFirst(before, extra);
    }
  }

  /** The event type as printed: `None` for an empty one. */
  function ShownKey(evt: string): string
  {
    if evt == "" then "None" else evt
  }

  /** The process name as printed: `None` for a missing or empty one. */
  function ShownProcess(processName: Option<string>): string
  {
    if processName.None? || processName.value == "" then "None" else processName.value
  }

  /** The fixed start of a log line: activity, event type and process. */
  function LogPrefix(evt: string, processName: Option<string>): Props<string>
  {
    Props(["activity", "key", "process"],
      map["activity" := "pubsub", "key" := ShownKey(evt), "process" := ShownProcess(processName)])
  }

  /** The fixed fields print in the order they are written. */
  lemma PrefixEntries(evt: string, processName: Option<string>)
    ensures var prefix := LogPrefix(evt, processName);
      Entries(prefix.order, prefix.values) ==
        [("activity", "pubsub"), ("key", ShownKey(evt)), ("process", ShownProcess(processName))]
  {
    var prefix := LogPrefix(evt, processName);
    var v := prefix.values;
    assert Entries(["activity"], v) == [("activity", "pubsub")] by {
      assert ["activity"][..0] == [];
    }
    assert Entries(["activity", "key"], v) == [("activity", "pubsub"), ("key", ShownKey(evt))] by {
      assert ["activity", "key"][..1] == ["activity"];
    }
    assert prefix.order[..2] == ["activity", "key"];
  }

  lemma PrefixLine(evt: string, processName: Option<string>)
    ensures var prefix := LogPrefix(evt, processName);
      ActivityLogString(Entries(prefix.order, prefix.values)) ==
        Field("activity", "pubsub") + Field("key", ShownKey(evt)) + Field("process", ShownProcess(processName))
  {
    PrefixEntries(evt, processName);
    var first := ("activity", "pubsub");
    var entries := [first, ("key", ShownKey(evt)), ("process", ShownProcess(processName))];
    assert ActivityLogString([first]) == Field("activity", "pubsub") by {
      assert [first][..0] == [];
      assert "" + Field("activity", "pubsub") == Field("activity", "pubsub");
    }
    assert entries[..2][..1] == [first];
    assert entries[..2] == [first, ("key", ShownKey(evt))];
  }

  /** The entries `log` prints for one event type. */
  function LogObject(evt: string, processName: Option<string>, row: Row): seq<(string, string)>
  {
    var merged := Spread(LogPrefix(evt, processName), Render(row));
    Entries(merged.order, merged.values)
  }

  /**
   * A row whose counters are not named like the three fixed fields is printed
   * after them, counter by counter in insertion order.
   */
  lemma LogLineShape(evt: string, processName: Option<string>, row: Row)
    requires WellFormed(row)
    requires forall k :: k in row.values ==> k !in ["activity", "key", "process"]
    ensures ActivityLogString(LogObject(evt, processName, row)) ==
      Field("activity", "pubsub") + Field("key", ShownKey(evt)) + Field("process", ShownProcess(processName))
      + ActivityLogString(Render(row))
  {
    var prefix := LogPrefix(evt, processName);
    var extra := Render(row);
    assert Names(extra) == row.order;
    assert WellFormed(prefix) by {
      assert forall name :: name in prefix.order <==> name in prefix.values;
    }
    forall i | 0 <= i < |extra|
      ensures extra[i].0 !in prefix.values
    {
      assert row.order[i] in row.values;
    }
    SpreadFresh(prefix, extra);
    ActivityLogStringConcat(Entries(prefix.order, prefix.values), extra);
    PrefixEntries(evt, processName);
    PrefixLine(evt, processName);
  }

  /** The lines `log` prints for the event types in `order`. */
  function Lines(order: seq<string>, t: Table, processName: Option<string>): (lines: seq<string>)
    ensures |lines| == |order|
    ensures forall i :: 0 <= i < |order| ==>
      lines[i] == ActivityLogString(LogObject(order[i], processName, RowOf(t, order[i])))
  {
    if order == [] then []
    else
      var line := ActivityLogString(LogObject(order[0], processName, RowOf(t, order[0])));
      [line] + Lines(order[1..], t, processName)
  }

  /** The lines `log` prints: none without a table, else one per event type, in order. */
  function LogLines(table: Option<Table>, processName: Option<string>): (lines: seq<string>)
    ensures table.None? ==> lines == []
    ensures table.Some? ==> |lines| == |table.value.order|
  {
    if table.None? then [] else Lines(table.value.order, table.value, processName)
  }

  lemma ThreeThousandPrinted()
    ensures IntToString(3000) == "3000"
  {
    assert NatToString(3) == "3";
    assert NatToString(30) == "30";
    assert NatToString(300) == "300";
  }

  // ---------------------------------------------------------------------
  // The log oracle of the statistics tests: three `bye.world` events and one
  // `hello.world` event through each tracker, then `log`.

  const Bye: string := "bye.world"
  const Hello: string := "hello.world"

  /** The fixed clock reading of every tracker call. */
  const Now: int := 100000

  /** An object updated a second before the clock reading. */
  const Late: Entities.Obj := Entities.Blank.(updatedAt := Some(Now - 1000))

  /** An object updated a millisecond before the clock reading. */
  const Recent: Entities.Obj := Entities.Blank.(updatedAt := Some(Now - 1))

  /** Three late `bye.world` objects through one tracker. */
  function ByeThrice(table: Option<Table>, keys: StatKeys): Option<Table>
  {
    var t1 := TrackTable(table, Some(Bye), Some(Late), Now, keys);
    var t2 := TrackTable(t1, Some(Bye), Some(Late), Now, keys);
    TrackTable(t2, Some(Bye), Some(Late), Now, keys)
  }

  /** One tracker's part of the test: three late `bye.world` objects, then one recent `hello.world`. */
  function Phase(table: Option<Table>, keys: StatKeys): Option<Table>
  {
    TrackTable(ByeThrice(table, keys), Some(Hello), Some(Recent), Now, keys)
  }

  /** One phase adds 3 and 3000 to the `bye.world` counters, 1 and 1 to the
      `hello.world` ones, and changes no other counter. */
  lemma {:induction false} PhaseCounters(table: Option<Table>, keys: StatKeys)
    requires keys.count != keys.time
    ensures var r := Phase(table, keys);
      && Counter(r, Bye, keys.count) == Counter(table, Bye, keys.count) + 3
      && Counter(r, Bye, keys.time) == Counter(table, Bye, keys.time) + 3000
      && Counter(r, Hello, keys.count) == Counter(table, Hello, keys.count) + 1
      && Counter(r, Hello, keys.time) == Counter(table, Hello, keys.time) + 1
      && forall e, k :: k != keys.count && k != keys.time ==> Counter(r, e, k) == Counter(table, e, k)
  {
    assert Elapsed(Recent, Now) == 1;
    assert Bye != Hello by { assert Bye[0] != Hello[0]; }
    ByeThriceCounters(table, keys);
    TrackAddsOne(ByeThrice(table, keys), Hello, Recent, Now, keys);
  }

  /** Three late `bye.world` tracks add 3 to its count key and 3000 to its
      time key, and change no other counter. */
  lemma {:induction false} ByeThriceCounters(table: Option<Table>, keys: StatKeys)
    requires keys.count != keys.time
    ensures var r := ByeThrice(table, keys);
      && Counter(r, Bye, keys.count) == Counter(table, Bye, keys.count) + 3
      && Counter(r, Bye, keys.time) == Counter(table, Bye, keys.time) + 3000
      && forall e, k :: (e != Bye || (k != keys.count && k != keys.time)) ==> Counter(r, e, k) == Counter(table, e, k)
  {
    assert Elapsed(Late, Now) == 1000;
    var t1 := TrackTable(table, Some(Bye), Some(Late), Now, keys);
    TrackAddsOne(table, Bye, Late, Now, keys);
    var t2 := TrackTable(t1, Some(Bye), Some(Late), Now, keys);
    TrackAddsOne(t1, Bye, Late, Now, keys);
    TrackAddsOne(t2, Bye, Late, Now, keys);
  }

  /** Three `bye.world` tracks on keys its row lacks append them to that row
      once, leave the other rows alone, and keep the table well formed. */
  lemma {:induction false} ByeThriceRows(table: Option<Table>, keys: StatKeys)
    requires keys.count != keys.time
    requires table.None? || TableOk(table.value)
    requires keys.count !in RowOf(TableOf(table), Bye).values && keys.time !in RowOf(TableOf(table), Bye).values
    ensures var r := ByeThrice(table, keys);
      && r.Some? && TableOk(r.value) && Bye in r.value.values
      && r.value.order == OrderWith(TableOf(table), Bye)
      && RowOf(r.value, Bye).order == RowOf(TableOf(table), Bye).order + [keys.count, keys.time]
      && RowOf(r.value, Bye).values.Keys == RowOf(TableOf(table), Bye).values.Keys + {keys.count, keys.time}
      && forall e :: e != Bye ==> RowOf(r.value, e) == RowOf(TableOf(table), e)
  {
    var t1 := TrackTable(table, Some(Bye), Some(Late), Now, keys);
    TrackRow(table, Bye, Late, Now, keys);
    TrackAddsOne(table, Bye, Late, Now, keys);
    var t2 := TrackTable(t1, Some(Bye), Some(Late), Now, keys);
    TrackRow(t1, Bye, Late, Now, keys);
    TrackAddsOne(t1, Bye, Late, Now, keys);
    TrackRow(t2, Bye, Late, Now, keys);
    TrackAddsOne(t2, Bye, Late, Now, keys);
  }

  /** Tracking `hello.world` on a table holding only the `bye.world` row appends its row. */
  lemma {:induction false} HelloAppended(t: Table, keys: StatKeys)
    requires TableOk(t) && t.order == [Bye]
    ensures var r := TrackTable(Some(t), Some(Hello), Some(Recent), Now, keys);
      r.Some? && TableOk(r.value) && r.value.order == [Bye, Hello]
  {
    assert Bye != Hello by { assert Bye[0] != Hello[0]; }
    assert Hello !in t.values by { assert Hello !in t.order; }
    assert OrderWith(t, Hello) == t.order + [Hello];
    PairOfSingletons(Bye, Hello);
  }

  lemma PairOfSingletons<T>(a: T, b: T)
    ensures [a] + [b] == [a, b]
  {
  }

  /** From no table, one phase creates the `bye.world` and then the `hello.world` row. */
  lemma {:induction false} PhaseCreatesRows(keys: StatKeys)
    requires keys.count != keys.time
    ensures Phase(None, keys).Some? && TableOk(Phase(None, keys).value)
    ensures Phase(None, keys).value.order == [Bye, Hello]
  {
    ByeThriceRows(None, keys);
    HelloAppended(ByeThrice(None, keys).value, keys);
  }

  /** On a table with both rows, one phase keeps the table's order. */
  lemma {:induction false} PhaseKeepsOrder(table: Table, keys: StatKeys)
    requires keys.count != keys.time
    requires TableOk(table) && Bye in table.values && Hello in table.values
    requires keys.count !in RowOf(table, Bye).values && keys.time !in RowOf(table, Bye).values
    ensures Phase(Some(table), keys).Some? && TableOk(Phase(Some(table), keys).value)
    ensures Phase(Some(table), keys).value.order == table.order
  {
    var t3 := ByeThrice(Some(table), keys);
    ByeThriceRows(Some(table), keys);
    assert Hello in t3.value.values by { assert RowOf(t3.value, Hello) == RowOf(table, Hello); }
  }

  /** One phase on keys neither row has yet appends them to both rows. */
  lemma {:induction false} PhaseRows(table: Option<Table>, keys: StatKeys)
    requires keys.count != keys.time
    requires table.None? || TableOk(table.value)
    requires keys.count !in RowOf(TableOf(table), Bye).values && keys.time !in RowOf(TableOf(table), Bye).values
    requires keys.count !in RowOf(TableOf(table), Hello).values && keys.time !in RowOf(TableOf(table), Hello).values
    ensures var r := Phase(table, keys).value;
      && RowOf(r, Bye).order == RowOf(TableOf(table), Bye).order + [keys.count, keys.time]
      && RowOf(r, Hello).order == RowOf(TableOf(table), Hello).order + [keys.count, keys.time]
      && RowOf(r, Bye).values.Keys == RowOf(TableOf(table), Bye).values.Keys + {keys.count, keys.time}
      && RowOf(r, Hello).values.Keys == RowOf(TableOf(table), Hello).values.Keys + {keys.count, keys.time}
  {
    assert Bye != Hello by { assert Bye[0] != Hello[0]; }
    var t3 := ByeThrice(table, keys);
    ByeThriceRows(table, keys);
    TrackRow(t3, Hello, Recent, Now, keys);
  }

  /** The key names of three trackers, in the order the test first uses them. */
  function KeyNames(k1: StatKeys, k2: StatKeys, k3: StatKeys): seq<string>
  {
    [k1.count, k1.time, k2.count, k2.time, k3.count, k3.time]
  }

  /** An event's count key holds `count` and its time key `time`. */
  predicate Holds(t: Option<Table>, evt: string, keys: StatKeys, count: int, time: int)
  {
    Counter(t, evt, keys.count) == count && Counter(t, evt, keys.time) == time
  }

  /** The table the test's tracker calls build. */
  function Tracked(): Option<Table>
  {
    Phase(Phase(Phase(None, SubscribeKeys), EmitKeys), ClientKeys)
  }

  /** Both event rows exist, in order, and each lists exactly the keys `done`. */
  ghost predicate Stage(t: Option<Table>, done: seq<string>)
  {
    && t.Some? && TableOk(t.value) && t.value.order == [Bye, Hello]
    && RowOf(t.value, Bye).order == done && RowOf(t.value, Hello).order == done
  }

  /** The first phase, from no table, reaches the stage of its own two keys. */
  lemma {:induction false} FirstStage(keys: StatKeys)
    requires keys.count != keys.time
    ensures Stage(Phase(None, keys), [keys.count, keys.time])
  {
    PhaseCreatesRows(keys);
    PhaseRows(None, keys);
    assert RowOf(TableOf(None), Bye).order == [];
    assert RowOf(TableOf(None), Hello).order == [];
  }

  /** A phase on two fresh keys moves a stage on by those keys. */
  lemma {:induction false} NextStage(t: Option<Table>, done: seq<string>, keys: StatKeys)
    requires Stage(t, done) && keys.count != keys.time && keys.count !in done && keys.time !in done
    ensures Stage(Phase(t, keys), done + [keys.count, keys.time])
  {
    var table := t.value;
    assert Bye in table.values && Hello in table.values by { assert Bye in table.order && Hello in table.order; }
    assert WellFormed(RowOf(table, Bye)) && WellFormed(RowOf(table, Hello));
    PhaseKeepsOrder(table, keys);
    PhaseRows(t, keys);
  }

  lemma NotAmong(x: string, a: string, b: string, c: string, d: string)
    requires x != a && x != b && x != c && x != d
    ensures x !in [a, b, c, d]
  {
  }

  lemma PairOfPairs<T>(a: T, b: T, c: T, d: T)
    ensures [a, b] + [c, d] == [a, b, c, d]
  {
  }

  lemma FourThenTwo<T>(a: T, b: T, c: T, d: T, e: T, f: T)
    ensures [a, b, c, d] + [e, f] == [a, b, c, d, e, f]
  {
  }

  /** The second phase, on keys apart from the first phase's. */
  lemma {:induction false} SecondStage(t: Option<Table>, k1: StatKeys, k2: StatKeys)
    requires Stage(t, [k1.count, k1.time]) && k2.count != k2.time
    requires k2.count != k1.count && k2.count != k1.time && k2.time != k1.count && k2.time != k1.time
    ensures Stage(Phase(t, k2), [k1.count, k1.time, k2.count, k2.time])
  {
    NextStage(t, [k1.count, k1.time], k2);
    PairOfPairs(k1.count, k1.time, k2.count, k2.time);
  }

  /** The third phase, on keys apart from the first two phases'. */
  lemma {:induction false} ThirdStage(t: Option<Table>, a: string, b: string, c: string, d: string, k3: StatKeys)
    requires Stage(t, [a, b, c, d]) && k3.count != k3.time
    requires k3.count != a && k3.count != b && k3.count != c && k3.count != d
    requires k3.time != a && k3.time != b && k3.time != c && k3.time != d
    ensures Stage(Phase(t, k3), [a, b, c, d, k3.count, k3.time])
  {
    NotAmong(k3.count, a, b, c, d);
    NotAmong(k3.time, a, b, c, d);
    NextStage(t, [a, b, c, d], k3);
    FourThenTwo(a, b, c, d, k3.count, k3.time);
  }

  /** Three phases on distinct keys, from no table: one row per event type, in
      order, each with the six keys in the order the phases add them. */
  lemma {:induction false} ThreePhasesRows(k1: StatKeys, k2: StatKeys, k3: StatKeys)
    requires Distinct(KeyNames(k1, k2, k3))
    ensures Stage(Phase(Phase(Phase(None, k1), k2), k3), KeyNames(k1, k2, k3))
  {
    var names := KeyNames(k1, k2, k3);
    assert names[0] != names[1] && names[2] != names[3] && names[4] != names[5];
    assert names[0] != names[2] && names[0] != names[3] && names[1] != names[2] && names[1] != names[3];
    assert names[0] != names[4] && names[0] != names[5] && names[1] != names[4] && names[1] != names[5];
    assert names[2] != names[4] && names[2] != names[5] && names[3] != names[4] && names[3] != names[5];
    FirstStage(k1);
    var t1 := Phase(None, k1);
    SecondStage(t1, k1, k2);
    ThirdStage(Phase(t1, k2), k1.count, k1.time, k2.count, k2.time, k3);
  }

  /** A phase leaves the counters of keys other than its own alone. */
  lemma {:induction false} PhaseKeepsHolds(t: Option<Table>, keys: StatKeys, other: StatKeys, evt: string, count: int, time: int)
    requires keys.count != keys.time
    requires other.count != keys.count && other.count != keys.time && other.time != keys.count && other.time != keys.time
    requires Holds(t, evt, other, count, time)
    ensures Holds(Phase(t, keys), evt, other, count, time)
  {
    PhaseCounters(t, keys);
  }

  /** A phase on keys still at 0 leaves 3 and 3000 for `bye.world`, 1 and 1 for `hello.world`. */
  lemma {:induction false} PhaseFromZero(t: Option<Table>, keys: StatKeys)
    requires keys.count != keys.time && Holds(t, Bye, keys, 0, 0) && Holds(t, Hello, keys, 0, 0)
    ensures Holds(Phase(t, keys), Bye, keys, 3, 3000) && Holds(Phase(t, keys), Hello, keys, 1, 1)
  {
    PhaseCounters(t, keys);
  }

  /** Three phases on distinct keys, from no table: 3 and 3000 in each pair of
      `bye.world` counters, 1 and 1 in each pair of `hello.world` ones. */
  lemma {:induction false} ThreePhasesCounters(k1: StatKeys, k2: StatKeys, k3: StatKeys)
    requires Distinct(KeyNames(k1, k2, k3))
    ensures var r := Phase(Phase(Phase(None, k1), k2), k3);
      && Holds(r, Bye, k1, 3, 3000) && Holds(r, Bye, k2, 3, 3000) && Holds(r, Bye, k3, 3, 3000)
      && Holds(r, Hello, k1, 1, 1) && Holds(r, Hello, k2, 1, 1) && Holds(r, Hello, k3, 1, 1)
  {
    var names := KeyNames(k1, k2, k3);
    assert names[0] != names[1] && names[2] != names[3] && names[4] != names[5];
    assert names[0] != names[2] && names[0] != names[3] && names[1] != names[2] && names[1] != names[3];
    assert names[0] != names[4] && names[0] != names[5] && names[1] != names[4] && names[1] != names[5];
    assert names[2] != names[4] && names[2] != names[5] && names[3] != names[4] && names[3] != names[5];
    Untracked(k1, k2, k3);
    var t1 := Phase(None, k1);
    PhaseFromZero(None, k1);
    PhaseKeepsHolds(None, k1, k2, Bye, 0, 0);
    PhaseKeepsHolds(None, k1, k2, Hello, 0, 0);
    PhaseKeepsHolds(None, k1, k3, Bye, 0, 0);
    PhaseKeepsHolds(None, k1, k3, Hello, 0, 0);
    var t2 := Phase(t1, k2);
    PhaseFromZero(t1, k2);
    PhaseKeepsHolds(t1, k2, k1, Bye, 3, 3000);
    PhaseKeepsHolds(t1, k2, k1, Hello, 1, 1);
    PhaseKeepsHolds(t1, k2, k3, Bye, 0, 0);
    PhaseKeepsHolds(t1, k2, k3, Hello, 0, 0);
    PhaseFromZero(t2, k3);
    PhaseKeepsHolds(t2, k3, k1, Bye, 3, 3000);
    PhaseKeepsHolds(t2, k3, k1, Hello, 1, 1);
    PhaseKeepsHolds(t2, k3, k2, Bye, 3, 3000);
    PhaseKeepsHolds(t2, k3, k2, Hello, 1, 1);
  }

  /** No table holds 0 in every counter. */
  lemma Untracked(k1: StatKeys, k2: StatKeys, k3: StatKeys)
    ensures Holds(None, Bye, k1, 0, 0) && Holds(None, Bye, k2, 0, 0) && Holds(None, Bye, k3, 0, 0)
    ensures Holds(None, Hello, k1, 0, 0) && Holds(None, Hello, k2, 0, 0) && Holds(None, Hello, k3, 0, 0)
  {
  }

  /** The counter names of the three trackers are all different. */
  lemma TrackerKeysDistinct()
    ensures Distinct(KeyNames(SubscribeKeys, EmitKeys, ClientKeys))
  {
    var names := KeyNames(SubscribeKeys, EmitKeys, ClientKeys);
    assert names[0][0] == 's' && names[1][0] == 's' && names[2][0] == 'e';
    assert names[3][0] == 'e' && names[4][0] == 'c' && names[5][0] == 'c';
    assert |names[0]| == 8 && |names[1]| == 7 && |names[2]| == 9 && |names[3]| == 8 && |names[4]| == 11 && |names[5]| == 10;
  }

  /** A row holds `count` in a tracker's count key and `time` in its time key. */
  predicate RowHolds(row: Row, keys: StatKeys, count: int, time: int)
  {
    keys.count in row.values && row.values[keys.count] == count && keys.time in row.values && row.values[keys.time] == time
  }

  /** A well-formed row listing a tracker's keys holds what the table's counters read. */
  lemma RowOfCounters(t: Table, evt: string, keys: StatKeys, count: int, time: int)
    requires TableOk(t) && evt in t.values && keys.count in RowOf(t, evt).order && keys.time in RowOf(t, evt).order
    requires Holds(Some(t), evt, keys, count, time)
    ensures WellFormed(RowOf(t, evt)) && RowHolds(RowOf(t, evt), keys, count, time)
  {
    assert WellFormed(RowOf(t, evt));
  }

  /** Printing one more counter appends its field. */
  lemma RenderStep(order: seq<string>, name: string, values: map<string, string>)
    ensures ActivityLogString(Entries(order + [name], values)) ==
      ActivityLogString(Entries(order, values)) + Field(name, if name in values then values[name] else "undefined")
  {
    assert (order + [name])[..|order|] == order;
    var entries := Entries(order, values);
    var last := (name, if name in values then values[name] else "undefined");
    assert (entries + [last])[..|entries|] == entries;
  }

  /** A row with three trackers' keys prints them in the order they were added. */
  lemma {:induction false} CountersPrinted(row: Row, k1: StatKeys, k2: StatKeys, k3: StatKeys, count: int, time: int)
    requires row.order == KeyNames(k1, k2, k3)
    requires RowHolds(row, k1, count, time) && RowHolds(row, k2, count, time) && RowHolds(row, k3, count, time)
    ensures ActivityLogString(Render(row)) ==
      Field(k1.count, IntToString(count)) + Field(k1.time, IntToString(time))
      + Field(k2.count, IntToString(count)) + Field(k2.time, IntToString(time))
      + Field(k3.count, IntToString(count)) + Field(k3.time, IntToString(time))
  {
    var printed := Printed(row);
    var c, tm := IntToString(count), IntToString(time);
    assert printed[k1.count] == c && printed[k1.time] == tm;
    assert printed[k2.count] == c && printed[k2.time] == tm;
    assert printed[k3.count] == c && printed[k3.time] == tm;
    var o1 := [] + [k1.count];
    var o2 := o1 + [k1.time];
    var o3 := o2 + [k2.count];
    var o4 := o3 + [k2.time];
    var o5 := o4 + [k3.count];
    var o6 := o5 + [k3.time];
    assert o6 == KeyNames(k1, k2, k3);
    assert ActivityLogString(Entries([], printed)) == "";
    RenderStep([], k1.count, printed);
    var l1 := ActivityLogString(Entries(o1, printed));
    assert l1 == "" + Field(k1.count, c) == Field(k1.count, c);
    RenderStep(o1, k1.time, printed);
    var l2 := ActivityLogString(Entries(o2, printed));
    assert l2 == l1 + Field(k1.time, tm);
    RenderStep(o2, k2.count, printed);
    var l3 := ActivityLogString(Entries(o3, printed));
    assert l3 == l2 + Field(k2.count, c);
    RenderStep(o3, k2.time, printed);
    var l4 := ActivityLogString(Entries(o4, printed));
    assert l4 == l3 + Field(k2.time, tm);
    RenderStep(o4, k3.count, printed);
    var l5 := ActivityLogString(Entries(o5, printed));
    assert l5 == l4 + Field(k3.count, c);
    RenderStep(o5, k3.time, printed);
    assert ActivityLogString(Entries(o6, printed)) == l5 + Field(k3.time, tm);
  }

  lemma SmallNumbersPrinted()
    ensures IntToString(1) == "1" && IntToString(3) == "3" && IntToString(3000) == "3000"
  {
    ThreeThousandPrinted();
  }

  /** Regrouping the prefix and the counters of a line. */
  lemma LineRegroup(a: string, b: string, c: string, d: string, e: string, f: string, g: string, h: string, i: string)
    ensures (a + b + c) + (d + e + f + g + h + i) == a + b + c + d + e + f + g + h + i
  {
  }

  /**
   * The line printed for an event row whose counters are named apart from
   * the fixed fields: the fixed fields, then the three trackers' counters in
   * the order they were added.
   */
  lemma {:induction false} TrackedLine(evt: string, processName: Option<string>, row: Row,
    k1: StatKeys, k2: StatKeys, k3: StatKeys, count: int, time: int)
    requires WellFormed(row) && row.order == KeyNames(k1, k2, k3)
    requires RowHolds(row, k1, count, time) && RowHolds(row, k2, count, time) && RowHolds(row, k3, count, time)
    requires forall k :: k in KeyNames(k1, k2, k3) ==> k !in ["activity", "key", "process"]
    ensures ActivityLogString(LogObject(evt, processName, row)) ==
      Field("activity", "pubsub") + Field("key", ShownKey(evt)) + Field("process", ShownProcess(processName))
      + Field(k1.count, IntToString(count)) + Field(k1.time, IntToString(time))
      + Field(k2.count, IntToString(count)) + Field(k2.time, IntToString(time))
      + Field(k3.count, IntToString(count)) + Field(k3.time, IntToString(time))
  {
    assert forall k :: k in row.values ==> k in row.order;
    LogLineShape(evt, processName, row);
    CountersPrinted(row, k1, k2, k3, count, time);
    LineRegroup(Field("activity", "pubsub"), Field("key", ShownKey(evt)), Field("process", ShownProcess(processName)),
      Field(k1.count, IntToString(count)), Field(k1.time, IntToString(time)),
      Field(k2.count, IntToString(count)), Field(k2.time, IntToString(time)),
      Field(k3.count, IntToString(count)), Field(k3.time, IntToString(time)));
  }

  /** The trackers' counter names are not those of the fixed fields. */
  lemma TrackerKeysNotFixed()
    ensures forall k :: k in KeyNames(SubscribeKeys, EmitKeys, ClientKeys) ==> k !in ["activity", "key", "process"]
  {
    assert "subCount"[0] != "activity"[0] && "subTime"[0] != "process"[0];
  }

  /** The first line of a `bye.world`/`hello.world` table: its fixed fields, then the counters. */
  function LineOf(evt: string, processName: Option<string>, k1: StatKeys, k2: StatKeys, k3: StatKeys,
    count: int, time: int): string
  {
    Field("activity", "pubsub") + Field("key", ShownKey(evt)) + Field("process", ShownProcess(processName))
    + Field(k1.count, IntToString(count)) + Field(k1.time, IntToString(time))
    + Field(k2.count, IntToString(count)) + Field(k2.time, IntToString(time))
    + Field(k3.count, IntToString(count)) + Field(k3.time, IntToString(time))
  }

  /** A table at the stage of three trackers' keys, holding the given counters,
      prints the `bye.world` line and then the `hello.world` line. */
  lemma {:induction false} StageLines(t: Option<Table>, processName: Option<string>, k1: StatKeys, k2: StatKeys, k3: StatKeys)
    requires Stage(t, KeyNames(k1, k2, k3))
    requires forall k :: k in KeyNames(k1, k2, k3) ==> k !in ["activity", "key", "process"]
    requires Holds(t, Bye, k1, 3, 3000) && Holds(t, Bye, k2, 3, 3000) && Holds(t, Bye, k3, 3, 3000)
    requires Holds(t, Hello, k1, 1, 1) && Holds(t, Hello, k2, 1, 1) && Holds(t, Hello, k3, 1, 1)
    ensures LogLines(t, processName) ==
      [LineOf(Bye, processName, k1, k2, k3, 3, 3000), LineOf(Hello, processName, k1, k2, k3, 1, 1)]
  {
    var table := t.value;
    assert Bye in table.values && Hello in table.values by { assert Bye in table.order && Hello in table.order; }
    var names := KeyNames(k1, k2, k3);
    assert k1.count in names && k1.time in names && k2.count in names;
    assert k2.time in names && k3.count in names && k3.time in names;
    RowOfCounters(table, Bye, k1, 3, 3000);
    RowOfCounters(table, Bye, k2, 3, 3000);
    RowOfCounters(table, Bye, k3, 3, 3000);
    RowOfCounters(table, Hello, k1, 1, 1);
    RowOfCounters(table, Hello, k2, 1, 1);
    RowOfCounters(table, Hello, k3, 1, 1);
    TrackedLine(Bye, processName, RowOf(table, Bye), k1, k2, k3, 3, 3000);
    TrackedLine(Hello, processName, RowOf(table, Hello), k1, k2, k3, 1, 1);
  }

  /** The two lines the test's tracker calls print, one field at a time. */
  lemma {:induction false} TrackedLines(processName: Option<string>)
    ensures LogLines(Tracked(), processName) == [
      LineOf(Bye, processName, SubscribeKeys, EmitKeys, ClientKeys, 3, 3000),
      LineOf(Hello, processName, SubscribeKeys, EmitKeys, ClientKeys, 1, 1)]
  {
    TrackerKeysDistinct();
    TrackerKeysNotFixed();
    ThreePhasesRows(SubscribeKeys, EmitKeys, ClientKeys);
    ThreePhasesCounters(SubscribeKeys, EmitKeys, ClientKeys);
    StageLines(Tracked(), processName, SubscribeKeys, EmitKeys, ClientKeys);
  }

  /**
   * The log oracle of the statistics tests: after three subscribes, emits and
   * client acknowledgements of `bye.world`, each a second late, and one of
   * each for `hello.world`, a millisecond late, `log` prints two lines, one
   * per event type in the order they were first tracked, each with the
   * subscribe, emit and client counters in the order they were created.
   */
  lemma {:induction false} OracleLines()
    ensures LogLines(Tracked(), Some("MyProcessName")) == [
      "activity=pubsub " + "key=bye.world " + "process=MyProcessName "
      + "subCount=3 " + "subTime=3000 " + "emitCount=3 " + "emitTime=3000 " + "clientCount=3 " + "clientTime=3000 ",
      "activity=pubsub " + "key=hello.world " + "process=MyProcessName "
      + "subCount=1 " + "subTime=1 " + "emitCount=1 " + "emitTime=1 " + "clientCount=1 " + "clientTime=1 "]
  {
    TrackedLines(Some("MyProcessName"));
    ByeLineSpelled();
    HelloLineSpelled();
  }

  /** The `bye.world` line of the oracle, spelled out. */
  lemma ByeLineSpelled()
    ensures LineOf(Bye, Some("MyProcessName"), SubscribeKeys, EmitKeys, ClientKeys, 3, 3000) ==
      "activity=pubsub " + "key=bye.world " + "process=MyProcessName "
      + "subCount=3 " + "subTime=3000 " + "emitCount=3 " + "emitTime=3000 " + "clientCount=3 " + "clientTime=3000 "
  {
    SmallNumbersPrinted();
    assert Field("activity", "pubsub") == "activity=pubsub ";
    assert Field("key", ShownKey(Bye)) == "key=bye.world ";
    assert Field("process", ShownProcess(Some("MyProcessName"))) == "process=MyProcessName ";
    assert Field("subCount", "3") == "subCount=3 " && Field("subTime", "3000") == "subTime=3000 ";
    assert Field("emitCount", "3") == "emitCount=3 " && Field("emitTime", "3000") == "emitTime=3000 ";
    assert Field("clientCount", "3") == "clientCount=3 " && Field("clientTime", "3000") == "clientTime=3000 ";
  }

  /** The `hello.world` line of the oracle, spelled out. */
  lemma HelloLineSpelled()
    ensures LineOf(Hello, Some("MyProcessName"), SubscribeKeys, EmitKeys, ClientKeys, 1, 1) ==
      "activity=pubsub " + "key=hello.world " + "process=MyProcessName "
      + "subCount=1 " + "subTime=1 " + "emitCount=1 " + "emitTime=1 " + "clientCount=1 " + "clientTime=1 "
  {
    SmallNumbersPrinted();
    assert Field("activity", "pubsub") == "activity=pubsub ";
    assert Field("key", ShownKey(Hello)) == "key=hello.world ";
    assert Field("process", ShownProcess(Some("MyProcessName"))) == "process=MyProcessName ";
    assert Field("subCount", "1") == "subCount=1 " && Field("subTime", "1") == "subTime=1 ";
    assert Field("emitCount", "1") == "emitCount=1 " && Field("emitTime", "1") == "emitTime=1 ";
    assert Field("clientCount", "1") == "clientCount=1 " && Field("clientTime", "1") == "clientTime=1 ";
  }

  /** The process-wide statistics global. */
  class PubSubStats {
    /** The `pubsubstats` global; `None` when it does not exist. */
    var table: Option<Table>

    constructor()
      ensures table == None
    {
      table := None;
    }

    /** initKeys, step by step. */
    method InitKeys(evt: string, key: string)
      modifies this
      ensures table == Some(InitKeysSpec(old(table), evt, key))
    {
      if table.None? {
        table := Some(Empty());
      }
      if evt !in table.value.values {
        table := Some(Put(table.value, evt, Empty()));
      }
      var row := table.value.values[evt];
      if key !in row.values || row.values[key] == 0 {
        table := Some(Put(table.value, evt, Put(row, key, 0)));
      }
    }

    /** track: the argument checks, the elapsed time, then both increments. */
    method Track(evt: Option<string>, obj: Option<Entities.Obj>, time: int, keys: StatKeys)
      modifies this
      ensures table == TrackTable(old(table), evt, obj, time, keys)
    {
      if evt.None? || evt.value == "" {
        return;
      }
      if obj.None? {
        return;
      }
      var elapsed := 0;
      if obj.value.updatedAt.Some? {
        elapsed := time - obj.value.updatedAt.value;
      } else if obj.value.newEntity.Some? && obj.value.newEntity.value.updatedAt.Some? {
        elapsed := time - obj.value.newEntity.value.updatedAt.value;
      }
      assert elapsed == Elapsed(obj.value, time);
      ghost var start := table;
      InitKeys(evt.value, keys.count);
      InitKeys(evt.value, keys.time);
      var t := table.value;
      assert t == InitKeysSpec(Some(InitKeysSpec(start, evt.value, keys.count)), evt.value, keys.time);
      t := Bump(t, evt.value, keys.count, 1);
      t := Bump(t, evt.value, keys.time, elapsed);
      table := Some(t);
    }

    /** trackSubscribe, with `now` the clock reading. */
    method TrackSubscribe(enabled: bool, evt: Option<string>, obj: Option<Entities.Obj>, now: int)
      modifies this
      ensures table == if enabled then TrackTable(old(table), evt, obj, now, SubscribeKeys) else old(table)
    {
      if enabled {
        Track(evt, obj, now, SubscribeKeys);
      }
    }

    /** trackEmit, with `now` the clock reading. */
    method TrackEmit(enabled: bool, evt: Option<string>, obj: Option<Entities.Obj>, now: int)
      modifies this
      ensures table == if enabled then TrackTable(old(table), evt, obj, now, EmitKeys) else old(table)
    {
      if enabled {
        Track(evt, obj, now, EmitKeys);
      }
    }

    /** trackClient, with `time` the client's acknowledgement. */
    method TrackClient(enabled: bool, evt: Option<string>, obj: Option<Entities.Obj>, time: int)
      modifies this
      ensures table == if enabled then TrackTable(old(table), evt, obj, time, ClientKeys) else old(table)
    {
      if enabled {
        Track(evt, obj, time, ClientKeys);
      }
    }

    /** trackConnections: add 1 to one counter of the `connections` row. */
    method TrackConnections(enabled: bool, count: string)
      modifies this
      ensures table == if enabled then Some(TrackConnectionsTable(old(table), count)) else old(table)
    {
      if enabled {
        InitKeys(ConnectionsRow, count);
        var t := table.value;
        table := Some(Bump(t, ConnectionsRow, count, 1));
      }
    }

    method TrackConnect(enabled: bool)
      modifies this
      ensures table == if enabled then Some(TrackConnectionsTable(old(table), ConnectCount)) else old(table)
    {
      TrackConnections(enabled, ConnectCount);
    }

    method TrackDisconnect(enabled: bool)
      modifies this
      ensures table == if enabled then Some(TrackConnectionsTable(old(table), DisconnectCount)) else old(table)
    {
      TrackConnections(enabled, DisconnectCount);
    }

    method TrackAuthError(enabled: bool)
      modifies this
      ensures table == if enabled then Some(TrackConnectionsTable(old(table), AuthErrorCount)) else old(table)
    {
      TrackConnections(enabled, AuthErrorCount);
    }

    /**
     * log: record the connected-socket count when there is a socket server
     * and connection stats are on, then take the table, delete the global and
     * return one line per event type.
     */
    method Log(processName: Option<string>, connectedSockets: Option<nat>, connectionStats: bool)
      returns (lines: seq<string>)
      modifies this
      ensures table == None
      ensures lines == LogLines(Snapshot(old(table), connectedSockets, connectionStats), processName)
    {
      if connectedSockets.Some? && connectionStats {
        InitKeys(ConnectionsRow, ConnectedSockets);
        table := Some(Assign(table.value, ConnectionsRow, ConnectedSockets, connectedSockets.value));
      }
      var eventStats := table;
      if eventStats.None? {
        return [];
      }
      table := None;
      lines := LogLines(eventStats, processName);
    }
  }

  /**
   * The flush oracle: after one tracked subscribe, `log` prints one line and
   * empties the table, so a second `log` straight after prints nothing.
   */
  method LogTwice() returns (first: seq<string>, second: seq<string>)
    ensures |first| == 1 && second == []
  {
    var stats := new PubSubStats();
    var obj := Entities.Blank.(updatedAt := Some(4000));
    stats.TrackSubscribe(true, Some("bye.world"), Some(obj), 5000);
    first := stats.Log(Some("MyProcessName"), None, false);
    second := stats.Log(Some("MyProcessName"), None, false);
  }

  /**
   * The log oracle run through the statistics global: three late `bye.world`
   * and one recent `hello.world` object through each tracker, with the clock
   * fixed, then `log` with no socket server.
   */
  method LogOracle() returns (lines: seq<string>)
    ensures lines == [
      "activity=pubsub " + "key=bye.world " + "process=MyProcessName "
      + "subCount=3 " + "subTime=3000 " + "emitCount=3 " + "emitTime=3000 " + "clientCount=3 " + "clientTime=3000 ",
      "activity=pubsub " + "key=hello.world " + "process=MyProcessName "
      + "subCount=1 " + "subTime=1 " + "emitCount=1 " + "emitTime=1 " + "clientCount=1 " + "clientTime=1 "]
  {
    var stats := new PubSubStats();
    stats.TrackSubscribe(true, Some(Bye), Some(Late), Now);
    stats.TrackSubscribe(true, Some(Bye), Some(Late), Now);
    stats.TrackSubscribe(true, Some(Bye), Some(Late), Now);
    stats.TrackSubscribe(true, Some(Hello), Some(Recent), Now);
    assert stats.table == Phase(None, SubscribeKeys);
    stats.TrackEmit(true, Some(Bye), Some(Late), Now);
    stats.TrackEmit(true, Some(Bye), Some(Late), Now);
    stats.TrackEmit(true, Some(Bye), Some(Late), Now);
    stats.TrackEmit(true, Some(Hello), Some(Recent), Now);
    assert stats.table == Phase(Phase(None, SubscribeKeys), EmitKeys);
    stats.TrackClient(true, Some(Bye), Some(Late), Now);
    stats.TrackClient(true, Some(Bye), Some(Late), Now);
    stats.TrackClient(true, Some(Bye), Some(Late), Now);
    stats.TrackClient(true, Some(Hello), Some(Recent), Now);
    assert stats.table == Tracked();
    lines := stats.Log(Some("MyProcessName"), None, false);
    OracleLines();
  }
}
