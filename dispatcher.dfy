/**
 * The exported dispatcher of src/emitter.js: given an event key and its
 * object, what is emitted where, and which legacy namespaces are created.
 * The transport is not modelled; the dispatcher's effects are returned in
 * the order it performs them, and the namespaces it scans, with their
 * connection counts, are an input.
 */
module Dispatcher {
  import opened Results
  import opened JsText
  import opened Entities
  import opened Keys
  import opened Emit

  /** The feature toggles the dispatcher consults, `enableClientStats` through doEmit. */
  datatype Toggles = Toggles(
    useNewNamespaceFormat: bool,
    useOldNamespaceFormatPersp: bool,
    useOldNamespaceFormatImc: bool,
    enableClientStats: bool)

  const PerspectivesNsp: string := "/perspectives"
  const RoomsNsp: string := "/rooms"
  const BotsNsp: string := "/bots"
  /** Every real-time event key starts with this. */
  const RealtimePrefix: string := "refocus.internal.realtime."
  const PerspectiveInitEvent: string := RealtimePrefix + "perspective" + "." + "namespace.initialize"
  const BotInitEvent: string := RealtimePrefix + "bot" + "." + "namespace.initialize"

  /** `key.split('.')[3]`: the routing category, absent for a key of fewer
      than four dot-separated parts. */
  function EventType(key: string): (category: Option<string>)
    ensures category.Some? <==> |Split(key, '.')| > 3
    ensures category.Some? ==> category.value == Split(key, '.')[3] && '.' !in category.value
  {
    var parts := Split(key, '.');
    if |parts| > 3 then Some(parts[3]) else None
  }

  lemma PrefixParts()
    ensures RealtimePrefix == ("refocus" + ['.']) + (("internal" + ['.']) + ("realtime" + ['.']))
  {
  }

  lemma Regroup(r: string, i: string, t: string, c: string, d: string, a: string)
    ensures (((r + (i + t)) + c) + d) + a == r + (i + (t + ((c + d) + a)))
  {
  }

  /** The category of a real-time event key `refocus.internal.realtime.<category>.<action>`. */
  lemma {:induction false} EventTypeOfKey(category: string, action: string)
    requires '.' !in category
    ensures EventType(RealtimePrefix + category + "." + action) == Some(category)
  {
    var s3 := category + ['.'] + action;
    var s2 := "realtime" + ['.'] + s3;
    var s1 := "internal" + ['.'] + s2;
    PrefixParts();
    Regroup("refocus" + ['.'], "internal" + ['.'], "realtime" + ['.'], category, ['.'], action);
    assert RealtimePrefix + category + "." + action == "refocus" + ['.'] + s1;
    SplitAtFirstSeparator(category, action, '.');
    SplitAtFirstSeparator("realtime", s3, '.');
    SplitAtFirstSeparator("internal", s2, '.');
    SplitAtFirstSeparator("refocus", s1, '.');
  }

  /** Any key that starts with `refocus.internal.realtime.<category>.` has that category. */
  lemma {:induction false} EventTypeUnderPrefix(key: string, category: string)
    requires '.' !in category
    requires StartsWith(key, RealtimePrefix + category + ".")
    ensures EventType(key) == Some(category)
  {
    var prefix := RealtimePrefix + category + ".";
    var action := key[|prefix|..];
    assert key == prefix + action;
    EventTypeOfKey(category, action);
  }

  lemma StartsWithShorter(s: string, a: string, b: string)
    requires StartsWith(s, a + b)
    ensures StartsWith(s, a)
  {
    assert s[..|a|] == s[..|a + b|][..|a|];
  }

  /** Something the dispatcher does: an emission, or the creation of a legacy namespace. */
  datatype Effect = Emitted(emission: Emission) | NamespaceCreated(nsp: string)

  /** The effects performed, in order, and the error that ended the call, if one did. */
  datatype Outcome = Outcome(effects: seq<Effect>, thrown: Option<string>)

  /** A socket.io namespace as the legacy scan sees it: its name and number of connections. */
  datatype Nsp = Nsp(name: string, connections: nat)

  /** The effects of a list of emissions. */
  function Emits(es: seq<Emission>): (effects: seq<Effect>)
    ensures |effects| == |es|
    ensures forall k :: 0 <= k < |es| ==> effects[k] == Emitted(es[k])
  {
    if es == [] then [] else [Emitted(es[0])] + Emits(es[1..])
  }

  /** Room ids as the field values emitToClients is handed. */
  function RoomVals(rooms: seq<string>): (vals: seq<Val>)
    ensures |vals| == |rooms|
    ensures forall k :: 0 <= k < |rooms| ==> vals[k] == Str(rooms[k])
  {
    if rooms == [] then [] else [Str(rooms[0])] + RoomVals(rooms[1..])
  }

  /**
   * The perspective rooms the event goes to: the registered rooms whose key
   * accepts the object, in registry order; the first key whose matcher throws
   * ends the filtering with that error.
   */
  function FilterRooms(rooms: seq<string>, obj: Obj): (r: Result<seq<string>>)
    ensures r.Err? <==> exists room :: room in rooms && ShouldIEmitThisObj(room, obj, None).Err?
    ensures r.Ok? ==> forall room :: room in r.value <==>
      room in rooms && ShouldIEmitThisObj(room, obj, None) == Ok(true)
    ensures r.Ok? ==> |r.value| <= |rooms|
  {
    if rooms == [] then Ok([])
    else
      var head := ShouldIEmitThisObj(rooms[0], obj, None);
      if head.Err? then Err(head.error)
      else
        var rest := FilterRooms(rooms[1..], obj);
        if rest.Err? then rest
        else Ok((if head.value then [rooms[0]] else []) + rest.value)
  }

  /** The ids of a room type's bots (`obj.type && obj.type.bots && ...map(bot => bot.id)`). */
  function BotIds(t: Option<RoomType>): (ids: Option<seq<Val>>)
    ensures ids.Some? <==> t.Some? && t.value.bots.Some?
    ensures ids.Some? ==> (|ids.value| == |t.value.bots.value|
      && forall k :: 0 <= k < |ids.value| ==> ids.value[k] == t.value.bots.value[k].id)
  {
    if t.None? || t.value.bots.None? then None
    else Some(seq(|t.value.bots.value|, k requires 0 <= k < |t.value.bots.value| => t.value.bots.value[k].id))
  }

  /** Runs `second` after `first` unless `first` threw. */
  function AndThen(first: Outcome, second: Result<seq<Emission>>): (r: Outcome)
  {
    if first.thrown.Some? then first
    else if second.Err? then Outcome(first.effects, Some(second.error))
    else Outcome(first.effects + Emits(second.value), None)
  }

  /**
   * The new-format branch: subject and sample events go to the accepted
   * registered rooms of `/perspectives` (reading the registry of a namespace
   * that was never initialized throws); a bot event goes to its room in
   * `/rooms` and to itself in `/bots`; a room event to itself in `/rooms`
   * and to its type's bots in `/bots`; any other category emits nothing.
   * With client statistics on, each emission reaches its whole namespace.
   */
  function NewFormat(perspectiveRooms: Option<seq<string>>, key: string, obj: Obj, clientStats: bool): (r: Outcome)
  {
    var category := EventType(key);
    var start := Outcome([], None);
    if category == Some("subject") || category == Some("sample") then
      if perspectiveRooms.None? then Outcome([], Some(TypeError))
      else
        var accepted := FilterRooms(perspectiveRooms.value, obj);
        if accepted.Err? then Outcome([], Some(accepted.error))
        else AndThen(start, EmitToClients(PerspectivesNsp, Some(RoomVals(accepted.value)), key, obj, clientStats))
    else if category == Some("bot") then
      AndThen(AndThen(start, EmitToClients(RoomsNsp, Some([obj.roomId]), key, obj, clientStats)),
        EmitToClients(BotsNsp, Some([obj.botId]), key, obj, clientStats))
    else if category == Some("room") then
      AndThen(AndThen(start, EmitToClients(RoomsNsp, Some([obj.id]), key, obj, clientStats)),
        EmitToClients(BotsNsp, BotIds(obj.roomType), key, obj, clientStats))
    else start
  }

  /** The legacy namespaces an initialization event creates, each under its toggle. */
  function InitEffects(t: Toggles, key: string, obj: Obj): (effects: seq<Effect>)
    ensures forall e :: e in effects ==> e.NamespaceCreated?
    ensures t.useOldNamespaceFormatPersp && StartsWith(key, PerspectiveInitEvent) ==>
      NamespaceCreated(PerspectiveKey(obj.perspective)) in effects
    ensures t.useOldNamespaceFormatImc && StartsWith(key, BotInitEvent) ==>
      NamespaceCreated(BotsNamespaceString(Some(obj))) in effects
    ensures !t.useOldNamespaceFormatPersp && !t.useOldNamespaceFormatImc ==> effects == []
  {
    (if t.useOldNamespaceFormatPersp && StartsWith(key, PerspectiveInitEvent)
     then [NamespaceCreated(PerspectiveKey(obj.perspective))] else [])
    + (if t.useOldNamespaceFormatImc && StartsWith(key, BotInitEvent)
       then [NamespaceCreated(BotsNamespaceString(Some(obj)))] else [])
  }

  /** A namespace the legacy scan emits to: it has a connection and its key accepts the object. */
  predicate Accepts(n: Nsp, obj: Obj, pubOpts: Option<PubOpts>)
  {
    n.connections > 0 && ShouldIEmitThisObj(n.name, obj, pubOpts) == Ok(true)
  }

  /** A namespace on which the legacy scan throws: the matcher throws, or it
      accepts and the payload cannot be shaped. */
  predicate Throws(n: Nsp, key: string, obj: Obj, pubOpts: Option<PubOpts>)
  {
    n.connections > 0 &&
      (ShouldIEmitThisObj(n.name, obj, pubOpts).Err? ||
       (ShouldIEmitThisObj(n.name, obj, pubOpts) == Ok(true) && GetNewObj(key, obj).Err?))
  }

  /**
   * The legacy scan over every namespace: each one with a connection whose
   * key accepts the object gets the payload, broadcast to the whole namespace;
   * the scan stops at the first error.
   */
  function OldScan(nsps: seq<Nsp>, key: string, obj: Obj, pubOpts: Option<PubOpts>): (r: Outcome)
    ensures r.thrown.Some? <==> exists n :: n in nsps && Throws(n, key, obj, pubOpts)
    ensures forall e :: e in r.effects ==>
      && e.Emitted? && e.emission.target == WholeNamespace
      && GetNewObj(key, obj) == Ok(e.emission.envelope)
      && exists n :: n in nsps && n.name == e.emission.nsp && Accepts(n, obj, pubOpts)
    ensures r.thrown.None? ==> forall n :: n in nsps && Accepts(n, obj, pubOpts) ==>
      GetNewObj(key, obj).Ok? && Emitted(Emission(n.name, WholeNamespace, GetNewObj(key, obj).value)) in r.effects
  {
    if nsps == [] then Outcome([], None)
    else
      var n := nsps[0];
      assert nsps == [n] + nsps[1..];
      var rest := OldScan(nsps[1..], key, obj, pubOpts);
      if n.connections == 0 then rest
      else
        var matched := ShouldIEmitThisObj(n.name, obj, pubOpts);
        if matched.Err? then
          assert Throws(n, key, obj, pubOpts);
          Outcome([], Some(matched.error))
        else if !matched.value then rest
        else
          var env := GetNewObj(key, obj);
          if env.Err? then Outcome([], Some(env.error))
          else Outcome([Emitted(Emission(n.name, WholeNamespace, env.value))] + rest.effects, rest.thrown)
  }

  /** The dispatcher's outcome from its three parts: the new-format outcome,
      which ends dispatch when it throws, the namespace creations and the legacy scan. */
  function Assemble(current: Outcome, init: seq<Effect>, scan: Outcome): Outcome
  {
    if current.thrown.Some? then current else Outcome(current.effects + init + scan.effects, scan.thrown)
  }

  /**
   * The dispatcher: the new-format emissions when that format is on, then
   * the legacy namespace creations, then the legacy scan when the event's
   * category has its legacy toggle on. An error ends the call.
   */
  function Dispatch(t: Toggles, perspectiveRooms: Option<seq<string>>, nsps: seq<Nsp>,
    key: string, obj: Obj, pubOpts: Option<PubOpts>): (r: Outcome)
  {
    var category := EventType(key);
    var current := if t.useNewNamespaceFormat then NewFormat(perspectiveRooms, key, obj, t.enableClientStats) else Outcome([], None);
    var emitPersp := t.useOldNamespaceFormatPersp && (category == Some("subject") || category == Some("sample"));
    var emitImc := t.useOldNamespaceFormatImc && (category == Some("bot") || category == Some("room"));
    var scan := if emitPersp || emitImc then OldScan(nsps, key, obj, pubOpts) else Outcome([], None);
    Assemble(current, InitEffects(t, key, obj), scan)
  }

  // ---------------------------------------------------------------------
  // Routing laws.

  /** Only the new format on, the legacy formats and client statistics off:
      the event's category decides its targets. */
  const NewOnly: Toggles := Toggles(true, false, false, false)

  /**
   * Subject and sample events, new format: one emission to `/perspectives`
   * addressed to exactly the registered rooms whose key accepts the object,
   * or none when no room does.
   */
  lemma {:induction false} PerspectiveEventsReachAcceptedRooms(rooms: seq<string>, nsps: seq<Nsp>,
    key: string, obj: Obj, pubOpts: Option<PubOpts>)
    requires EventType(key) == Some("subject") || EventType(key) == Some("sample")
    requires FilterRooms(rooms, obj).Ok? && GetNewObj(key, obj).Ok?
    ensures Dispatch(NewOnly, Some(rooms), nsps, key, obj, pubOpts).thrown.None?
    ensures var effects := Dispatch(NewOnly, Some(rooms), nsps, key, obj, pubOpts).effects;
      && |effects| <= 1
      && (|effects| == 1 <==> exists room :: room in rooms && ShouldIEmitThisObj(room, obj, None) == Ok(true))
      && (|effects| == 1 ==>
            && effects[0].Emitted? && effects[0].emission.nsp == PerspectivesNsp
            && effects[0].emission.target.Rooms?
            && forall room :: Str(room) in effects[0].emission.target.ids <==>
                 room in rooms && ShouldIEmitThisObj(room, obj, None) == Ok(true))
  {
    var accepted := FilterRooms(rooms, obj).value;
    var effects := Dispatch(NewOnly, Some(rooms), nsps, key, obj, pubOpts).effects;
    if accepted == [] {
      assert effects == [];
      forall room | room in rooms
        ensures ShouldIEmitThisObj(room, obj, None) != Ok(true)
      {
        assert room !in accepted;
      }
    } else {
      assert accepted[0] in accepted;
      var ids := RoomVals(accepted);
      assert effects == [Emitted(Emission(PerspectivesNsp, Rooms(ids), GetNewObj(key, obj).value))];
      forall room
        ensures Str(room) in ids <==> room in accepted
      {
        if Str(room) in ids {
          var k :| 0 <= k < |ids| && ids[k] == Str(room);
        }
        if room in accepted {
          var k :| 0 <= k < |accepted| && accepted[k] == room;
          assert ids[k] == Str(room);
        }
      }
    }
  }

  /** A room absent from the registry is never a target, whatever its key would say. */
  lemma UnregisteredRoomNeverTargeted(rooms: seq<string>, nsps: seq<Nsp>,
    key: string, obj: Obj, pubOpts: Option<PubOpts>, room: string)
    requires EventType(key) == Some("subject") || EventType(key) == Some("sample")
    requires room !in rooms
    ensures forall e :: e in Dispatch(NewOnly, Some(rooms), nsps, key, obj, pubOpts).effects ==>
      e.Emitted? && e.emission.target.Rooms? && Str(room) !in e.emission.target.ids
  {
    var effects := Dispatch(NewOnly, Some(rooms), nsps, key, obj, pubOpts).effects;
    var accepted := FilterRooms(rooms, obj);
    if accepted.Err? || GetNewObj(key, obj).Err? {
      assert effects == [];
    } else if accepted.value == [] {
      assert effects == [];
    } else {
      var ids := RoomVals(accepted.value);
      assert effects == [Emitted(Emission(PerspectivesNsp, Rooms(ids), GetNewObj(key, obj).value))];
      forall k | 0 <= k < |ids|
        ensures ids[k] != Str(room)
      {
        assert accepted.value[k] in accepted.value;
      }
    }
  }

  /** A bot event, new format: its room id in `/rooms`, then its bot id in `/bots`. */
  lemma BotEventTargets(rooms: Option<seq<string>>, nsps: seq<Nsp>, key: string, obj: Obj,
    pubOpts: Option<PubOpts>)
    requires EventType(key) == Some("bot") && GetNewObj(key, obj).Ok?
    ensures Dispatch(NewOnly, rooms, nsps, key, obj, pubOpts) == Outcome([
      Emitted(Emission(RoomsNsp, Rooms([obj.roomId]), GetNewObj(key, obj).value)),
      Emitted(Emission(BotsNsp, Rooms([obj.botId]), GetNewObj(key, obj).value))], None)
  {
  }

  /**
   * A room event, new format: its id in `/rooms`, then the ids of its type's
   * bots in `/bots`, and nothing to `/bots` when the type or its bot list is
   * absent or the list is empty.
   */
  lemma RoomEventTargets(rooms: Option<seq<string>>, nsps: seq<Nsp>, key: string, obj: Obj,
    pubOpts: Option<PubOpts>)
    requires EventType(key) == Some("room") && GetNewObj(key, obj).Ok?
    ensures var env := GetNewObj(key, obj).value;
      var ids := BotIds(obj.roomType);
      Dispatch(NewOnly, rooms, nsps, key, obj, pubOpts) == Outcome(
        [Emitted(Emission(RoomsNsp, Rooms([obj.id]), env))]
        + (if ids.Some? && ids.value != [] then [Emitted(Emission(BotsNsp, Rooms(ids.value), env))] else []),
        None)
  {
  }

  /** Events of any other category emit nothing in the new format. */
  lemma OtherCategoriesSilent(rooms: Option<seq<string>>, nsps: seq<Nsp>, key: string, obj: Obj,
    pubOpts: Option<PubOpts>)
    requires EventType(key) !in {Some("subject"), Some("sample"), Some("bot"), Some("room")}
    ensures Dispatch(NewOnly, rooms, nsps, key, obj, pubOpts) == Outcome([], None)
  {
  }

  /**
   * Legacy gating: with the new format off, a subject or sample event reaches
   * the legacy namespaces only under `useOldNamespaceFormatPersp`, and a bot
   * or room event only under `useOldNamespaceFormatImc`; an event that is not
   * an initialization otherwise does nothing.
   */
  lemma {:induction false} LegacyScanGated(t: Toggles, rooms: Option<seq<string>>, nsps: seq<Nsp>,
    key: string, obj: Obj, pubOpts: Option<PubOpts>)
    requires !t.useNewNamespaceFormat
    requires !StartsWith(key, PerspectiveInitEvent) && !StartsWith(key, BotInitEvent)
    ensures var cat := EventType(key);
      var scanned := (t.useOldNamespaceFormatPersp && cat in {Some("subject"), Some("sample")})
        || (t.useOldNamespaceFormatImc && cat in {Some("bot"), Some("room")});
      Dispatch(t, rooms, nsps, key, obj, pubOpts) ==
        if scanned then OldScan(nsps, key, obj, pubOpts) else Outcome([], None)
  {
    assert InitEffects(t, key, obj) == [];
  }

  /**
   * The legacy scan with its toggle on: a namespace is sent the payload
   * exactly when it has a connection and its key accepts the object
   * (absent errors).
   */
  lemma {:induction false} LegacyScanTargets(nsps: seq<Nsp>, key: string, obj: Obj,
    pubOpts: Option<PubOpts>, n: Nsp)
    requires OldScan(nsps, key, obj, pubOpts).thrown.None? && GetNewObj(key, obj).Ok?
    requires n in nsps
    ensures Emitted(Emission(n.name, WholeNamespace, GetNewObj(key, obj).value))
      in OldScan(nsps, key, obj, pubOpts).effects
      <==> exists m :: m in nsps && m.name == n.name && Accepts(m, obj, pubOpts)
  {
  }

  /**
   * An initialization event for a perspective creates that perspective's
   * legacy namespace, keyed as the matcher reads it, under its toggle, and
   * does nothing else.
   */
  lemma {:induction false} PerspectiveInitCreatesNamespace(t: Toggles, rooms: Option<seq<string>>,
    nsps: seq<Nsp>, key: string, obj: Obj, pubOpts: Option<PubOpts>)
    requires StartsWith(key, PerspectiveInitEvent)
    ensures Dispatch(t, rooms, nsps, key, obj, pubOpts) == Outcome(
      if t.useOldNamespaceFormatPersp then [NamespaceCreated(PerspectiveKey(obj.perspective))] else [], None)
  {
    StartsWithShorter(key, RealtimePrefix + "perspective" + ".", "namespace.initialize");
    EventTypeUnderPrefix(key, "perspective");
    assert !StartsWith(key, BotInitEvent) by {
      assert key[26] == PerspectiveInitEvent[26] == 'p';
      assert BotInitEvent[26] == 'b';
    }
  }

  /**
   * An initialization event for a bot room creates the room's legacy
   * namespace exactly when its toggle is on. Being a bot event, it is also
   * routed like one: in the new format its two emissions come first.
   */
  lemma {:induction false} BotInitCreatesNamespace(t: Toggles, rooms: Option<seq<string>>,
    nsps: seq<Nsp>, key: string, obj: Obj, pubOpts: Option<PubOpts>)
    requires StartsWith(key, BotInitEvent)
    ensures var r := Dispatch(t, rooms, nsps, key, obj, pubOpts);
      && (NamespaceCreated(BotsNamespaceString(Some(obj))) in r.effects <==> t.useOldNamespaceFormatImc)
      && var first := if t.useNewNamespaceFormat then 2 else 0;
         (t.useOldNamespaceFormatImc ==>
            |r.effects| > first && r.effects[first] == NamespaceCreated(BotsNamespaceString(Some(obj))))
  {
    BotInitKey(key);
    var current := if t.useNewNamespaceFormat then NewFormat(rooms, key, obj, t.enableClientStats)
      else Outcome([], None);
    if t.useNewNamespaceFormat {
      BotNewFormat(rooms, key, obj, t.enableClientStats);
    }
    var x := NamespaceCreated(BotsNamespaceString(Some(obj)));
    var init := InitEffects(t, key, obj);
    InitIgnoresClientStats(t, key, obj);
    assert init == if t.useOldNamespaceFormatImc then [x] else [];
    var scan := if t.useOldNamespaceFormatImc then OldScan(nsps, key, obj, pubOpts) else Outcome([], None);
    assert x !in scan.effects;
    assert Dispatch(t, rooms, nsps, key, obj, pubOpts).effects == current.effects + init + scan.effects;
    CreatedBetween(current.effects, init, scan.effects, x);
  }

  /** A bot initialization key is a bot event, not a perspective initialization
      and not the sample no-change event. */
  lemma BotInitKey(key: string)
    requires StartsWith(key, BotInitEvent)
    ensures EventType(key) == Some("bot") && !StartsWith(key, PerspectiveInitEvent) && key != SampleNoChange
  {
    StartsWithShorter(key, RealtimePrefix + "bot" + ".", "namespace.initialize");
    EventTypeUnderPrefix(key, "bot");
    assert !StartsWith(key, PerspectiveInitEvent) by {
      assert key[26] == BotInitEvent[26] == 'b';
      assert PerspectiveInitEvent[26] == 'p';
    }
    assert key != SampleNoChange by { assert key[26] != SampleNoChange[26]; }
  }

  /** A bot event whose payload can be shaped: the new format makes its two emissions and does not throw. */
  lemma BotNewFormat(rooms: Option<seq<string>>, key: string, obj: Obj, clientStats: bool)
    requires EventType(key) == Some("bot") && key != SampleNoChange
    ensures var current := NewFormat(rooms, key, obj, clientStats);
      current.thrown.None? && |current.effects| == 2 && forall e :: e in current.effects ==> e.Emitted?
  {
    assert GetNewObj(key, obj).Ok?;
  }

  /** A namespace creation that only the middle part holds is found there, right after the emissions. */
  lemma CreatedBetween(emissions: seq<Effect>, init: seq<Effect>, scan: seq<Effect>, x: Effect)
    requires x.NamespaceCreated? && (forall e :: e in emissions ==> e.Emitted?) && x !in scan
    requires init == [x] || init == []
    ensures x in emissions + init + scan <==> init == [x]
    ensures init == [x] ==> |emissions + init + scan| > |emissions| && (emissions + init + scan)[|emissions|] == x
  {
    assert x !in emissions;
  }

  // ---------------------------------------------------------------------
  // Client statistics.

  /** An effect with its emission, if it is one, sent to its whole namespace. */
  function Widen(e: Effect): Effect
  {
    if e.Emitted? then Emitted(e.emission.(target := WholeNamespace)) else e
  }

  /** Every effect widened, in order. */
  function WidenAll(effects: seq<Effect>): (r: seq<Effect>)
    ensures |r| == |effects|
    ensures forall k :: 0 <= k < |effects| ==> r[k] == Widen(effects[k])
  {
    if effects == [] then [] else [Widen(effects[0])] + WidenAll(effects[1..])
  }

  lemma WidenAllConcat(a: seq<Effect>, b: seq<Effect>)
    ensures WidenAll(a + b) == WidenAll(a) + WidenAll(b)
  {
  }

  /** Which namespaces are created does not depend on client statistics. */
  lemma InitIgnoresClientStats(t: Toggles, key: string, obj: Obj)
    ensures InitEffects(t.(enableClientStats := true), key, obj) == InitEffects(t, key, obj)
    ensures InitEffects(t.(enableClientStats := false), key, obj) == InitEffects(t, key, obj)
  {
  }

  /** Widening the new-format part widens the assembled outcome. */
  lemma AssembleWidened(currentOn: Outcome, currentOff: Outcome, init: seq<Effect>, scan: Outcome)
    requires currentOn == Outcome(WidenAll(currentOff.effects), currentOff.thrown)
    requires forall e :: e in init ==> e.NamespaceCreated?
    requires forall e :: e in scan.effects ==> e.Emitted? && e.emission.target == WholeNamespace
    ensures Assemble(currentOn, init, scan) ==
      Outcome(WidenAll(Assemble(currentOff, init, scan).effects), Assemble(currentOff, init, scan).thrown)
  {
    if currentOff.thrown.None? {
      WidenAllFixed(init);
      WidenAllFixed(scan.effects);
      TailWidened(currentOff.effects, init, scan.effects);
    }
  }

  /** Widening what comes before effects that are already wide. */
  lemma TailWidened(head: seq<Effect>, init: seq<Effect>, tail: seq<Effect>)
    requires WidenAll(init) == init && WidenAll(tail) == tail
    ensures WidenAll(head) + init + tail == WidenAll(head + init + tail)
  {
    WidenAllConcat(head, init);
    WidenAllConcat(head + init, tail);
  }

  /** Namespace creations and whole-namespace emissions are already wide. */
  lemma {:induction false} WidenAllFixed(effects: seq<Effect>)
    requires forall e :: e in effects ==> e.NamespaceCreated? || e.emission.target == WholeNamespace
    ensures WidenAll(effects) == effects
  {
    forall k | 0 <= k < |effects|
      ensures WidenAll(effects)[k] == effects[k]
    {
      assert effects[k] in effects;
    }
  }

  /** One emitToClients call with client statistics on: the same outcome, widened. */
  lemma EmitWidened(nsp: string, rooms: Option<seq<Val>>, key: string, obj: Obj)
    ensures var on, off := EmitToClients(nsp, rooms, key, obj, true), EmitToClients(nsp, rooms, key, obj, false);
      on.Err? == off.Err? && (on.Err? ==> on.error == off.error)
      && (on.Ok? ==> Emits(on.value) == WidenAll(Emits(off.value)))
  {
  }

  /** Running a widened call after a widened outcome widens the combined outcome. */
  lemma AndThenWidened(first: Outcome, on: Result<seq<Emission>>, off: Result<seq<Emission>>)
    requires on.Err? == off.Err? && (on.Err? ==> on.error == off.error)
    requires on.Ok? ==> Emits(on.value) == WidenAll(Emits(off.value))
    ensures AndThen(Outcome(WidenAll(first.effects), first.thrown), on) ==
      Outcome(WidenAll(AndThen(first, off).effects), AndThen(first, off).thrown)
  {
    if first.thrown.None? && off.Ok? {
      WidenAllConcat(first.effects, Emits(off.value));
    }
  }

  /** The new-format branch with client statistics on makes the same emissions, each widened. */
  lemma {:induction false} NewFormatWidened(rooms: Option<seq<string>>, key: string, obj: Obj)
    ensures NewFormat(rooms, key, obj, true) == Outcome(WidenAll(NewFormat(rooms, key, obj, false).effects),
      NewFormat(rooms, key, obj, false).thrown)
  {
    var category := EventType(key);
    var start := Outcome([], None);
    assert start == Outcome(WidenAll(start.effects), start.thrown);
    if category == Some("subject") || category == Some("sample") {
      if rooms.Some? && FilterRooms(rooms.value, obj).Ok? {
        var ids := Some(RoomVals(FilterRooms(rooms.value, obj).value));
        EmitWidened(PerspectivesNsp, ids, key, obj);
        AndThenWidened(start, EmitToClients(PerspectivesNsp, ids, key, obj, true),
          EmitToClients(PerspectivesNsp, ids, key, obj, false));
      }
    } else if category == Some("bot") || category == Some("room") {
      var roomIds := if category == Some("bot") then Some([obj.roomId]) else Some([obj.id]);
      var botIds := if category == Some("bot") then Some([obj.botId]) else BotIds(obj.roomType);
      EmitWidened(RoomsNsp, roomIds, key, obj);
      EmitWidened(BotsNsp, botIds, key, obj);
      var mid := AndThen(start, EmitToClients(RoomsNsp, roomIds, key, obj, false));
      AndThenWidened(start, EmitToClients(RoomsNsp, roomIds, key, obj, true),
        EmitToClients(RoomsNsp, roomIds, key, obj, false));
      AndThenWidened(mid, EmitToClients(BotsNsp, botIds, key, obj, true),
        EmitToClients(BotsNsp, botIds, key, obj, false));
    }
  }

  /**
   * enableClientStats changes only where the new-format emissions go: the
   * dispatcher makes the same emissions and namespace creations, in the same
   * order and with the same error, but each emission reaches every socket
   * connected to its namespace instead of the rooms it was addressed to.
   */
  lemma {:induction false} ClientStatsWidensTargets(t: Toggles, rooms: Option<seq<string>>, nsps: seq<Nsp>,
    key: string, obj: Obj, pubOpts: Option<PubOpts>)
    ensures var off := Dispatch(t.(enableClientStats := false), rooms, nsps, key, obj, pubOpts);
      Dispatch(t.(enableClientStats := true), rooms, nsps, key, obj, pubOpts) == Outcome(WidenAll(off.effects), off.thrown)
  {
    var tOn, tOff := t.(enableClientStats := true), t.(enableClientStats := false);
    var category := EventType(key);
    var emitPersp := t.useOldNamespaceFormatPersp && (category == Some("subject") || category == Some("sample"));
    var emitImc := t.useOldNamespaceFormatImc && (category == Some("bot") || category == Some("room"));
    var scan := if emitPersp || emitImc then OldScan(nsps, key, obj, pubOpts) else Outcome([], None);
    var init := InitEffects(t, key, obj);
    InitIgnoresClientStats(t, key, obj);
    var currentOff := if t.useNewNamespaceFormat then NewFormat(rooms, key, obj, false) else Outcome([], None);
    var currentOn := if t.useNewNamespaceFormat then NewFormat(rooms, key, obj, true) else Outcome([], None);
    NewFormatWidened(rooms, key, obj);
    AssembleWidened(currentOn, currentOff, init, scan);
  }
}
