/**
 * Matching an event object against a subscription key, and shaping the
 * payload that is sent (src/util/emitUtils.js). A property read on a missing
 * nested object raises a TypeError in the source; here it is `Err(TypeError)`.
 */
module Emit {
  import opened Results
  import opened JsText
  import opened Entities
  import opened Filter
  import opened Keys

  /** `nspComponents[i]`: a component, or `undefined` past either end. */
  function ComponentAt(comps: seq<string>, i: int): (c: Option<string>)
    ensures c.Some? <==> 0 <= i < |comps|
    ensures c.Some? ==> c.value == comps[i]
  {
    if 0 <= i < |comps| then Some(comps[i]) else None
  }

  /**
   * The sample branch of perspectiveEmit: aspect name, subject tags, aspect
   * tags and status, left to right with `&&` short-circuiting; reading through
   * a missing `aspect` or `subject` throws.
   */
  function SampleEmit(comps: seq<string>, obj: Obj): (r: Result<bool>)
    ensures r.Err? <==> (obj.aspect.None?
      || (ApplyFilter(ComponentAt(comps, 1), obj.aspect.value.name) && obj.subject.None?))
    ensures r == Ok(true) <==>
      && obj.aspect.Some? && obj.subject.Some?
      && ApplyFilter(ComponentAt(comps, 1), obj.aspect.value.name)
      && ApplyFilter(ComponentAt(comps, 2), obj.subject.value.tags)
      && ApplyFilter(ComponentAt(comps, 3), obj.aspect.value.tags)
      && ApplyFilter(ComponentAt(comps, 4), obj.status)
  {
    if obj.aspect.None? then Err(TypeError)
    else if !ApplyFilter(ComponentAt(comps, 1), obj.aspect.value.name) then Ok(false)
    else if obj.subject.None? then Err(TypeError)
    else Ok(ApplyFilter(ComponentAt(comps, 2), obj.subject.value.tags)
      && ApplyFilter(ComponentAt(comps, 3), obj.aspect.value.tags)
      && ApplyFilter(ComponentAt(comps, 4), obj.status))
  }

  /**
   * perspectiveEmit as the source writes it: the aspect branch reads the aspect
   * name through `obj.aspect`, which an aspect record does not have.
   */
  function PerspectiveEmitAsWritten(comps: seq<string>, obj: Obj): (r: Result<bool>)
    ensures WhatAmI(obj) == Aspect && |comps| >= 2 ==> (r.Err? <==> obj.aspect.None?)
  {
    if |comps| < 2 then Ok(true)
    else match WhatAmI(obj)
      case Subject => Ok(ApplyFilter(ComponentAt(comps, 2), obj.tags))
      case Aspect =>
        if obj.aspect.None? then Err(TypeError)
        else Ok(ApplyFilter(ComponentAt(comps, 1), obj.aspect.value.name)
          && ApplyFilter(ComponentAt(comps, 3), obj.tags))
      case Sample => SampleEmit(comps, obj)
  }

  /**
   * perspectiveEmit, with the aspect branch reading the aspect's own name.
   * Fewer than two components match anything; a subject is judged by the
   * subject-tag filter, an aspect by the aspect-name and aspect-tag filters,
   * anything else as a sample by all four.
   */
  function PerspectiveEmit(comps: seq<string>, obj: Obj): (r: Result<bool>)
    ensures |comps| < 2 ==> r == Ok(true)
    ensures r.Err? <==> |comps| >= 2 && WhatAmI(obj) == Sample && SampleEmit(comps, obj).Err?
    ensures |comps| >= 2 && WhatAmI(obj) == Subject ==> r == Ok(ApplyFilter(ComponentAt(comps, 2), obj.tags))
    ensures |comps| >= 2 && WhatAmI(obj) == Aspect ==>
      (r == Ok(true) <==> ApplyFilter(ComponentAt(comps, 1), obj.name)
                          && ApplyFilter(ComponentAt(comps, 3), obj.tags))
    ensures |comps| >= 2 && WhatAmI(obj) == Sample ==> r == SampleEmit(comps, obj)
  {
    if |comps| < 2 then Ok(true)
    else match WhatAmI(obj)
      case Subject => Ok(ApplyFilter(ComponentAt(comps, 2), obj.tags))
      case Aspect =>
        Ok(ApplyFilter(ComponentAt(comps, 1), obj.name) && ApplyFilter(ComponentAt(comps, 3), obj.tags))
      case Sample => SampleEmit(comps, obj)
  }

  /** The publisher options of a legacy bot event: which key component filters
      which field of the object. */
  datatype PubOpts = PubOpts(filterIndex: int, filterField: string)

  /** botEmit: no options, no emit; otherwise the chosen component filters the chosen field. */
  function BotEmit(comps: seq<string>, obj: Obj, pubOpts: Option<PubOpts>): (emit: bool)
    ensures pubOpts.None? ==> !emit
  {
    if pubOpts.None? then false
    else ApplyFilter(ComponentAt(comps, pubOpts.value.filterIndex), Field(obj, pubOpts.value.filterField))
  }

  /**
   * shouldIEmitThisObj: a key whose first component is a prefix of
   * `'/' + absolutePath` is decided by the perspective filters; otherwise a
   * `/Bots` key is decided by botEmit; any other key does not match.
   */
  function ShouldIEmitThisObj(nsp: string, obj: Obj, pubOpts: Option<PubOpts>): (r: Result<bool>)
    ensures r.Err? ==> StartsWith(ObjPath(obj), Split(nsp, '&')[0])
    ensures StartsWith(ObjPath(obj), Split(nsp, '&')[0]) ==> r == PerspectiveEmit(Split(nsp, '&'), obj)
    ensures !StartsWith(ObjPath(obj), Split(nsp, '&')[0]) ==>
      r == Ok(Split(nsp, '&')[0] == BotAbsolutePath && BotEmit(Split(nsp, '&'), obj, pubOpts))
  {
    var comps := Split(nsp, '&');
    if StartsWith(ObjPath(obj), comps[0]) then PerspectiveEmit(comps, obj)
    else if comps[0] == BotAbsolutePath then Ok(BotEmit(comps, obj, pubOpts))
    else Ok(false)
  }

  // ---------------------------------------------------------------------
  // The meaning of a key: what the perspective it encodes asks for.

  /** What one filter dimension asks of a field, read from the perspective
      itself: a non-empty INCLUDE list wants a candidate in the list, a
      non-empty EXCLUDE list wants none in it, anything else constrains nothing. */
  predicate DimMatches(d: Dimension, v: Val)
  {
    if |d.values| == 0 then true
    else if d.filterType == Some("INCLUDE") then exists c :: c in Candidates(v) && c in d.values
    else if d.filterType == Some("EXCLUDE") then forall c :: c in Candidates(v) ==> c !in d.values
    else true
  }

  /** An object the perspective filters can read without throwing: a sample
      carries its embedded aspect and subject. */
  predicate Shaped(obj: Obj)
  {
    WhatAmI(obj) == Sample ==> obj.aspect.Some? && obj.subject.Some?
  }

  /** Whether a perspective wants an object, by kind. */
  predicate PerspectiveMatches(p: Perspective, obj: Obj)
    requires Shaped(obj)
  {
    match WhatAmI(obj)
    case Subject => DimMatches(p.subjectTagFilter, obj.tags)
    case Aspect => DimMatches(p.aspectFilter, obj.name) && DimMatches(p.aspectTagFilter, obj.tags)
    case Sample =>
      && DimMatches(p.aspectFilter, obj.aspect.value.name)
      && DimMatches(p.subjectTagFilter, obj.subject.value.tags)
      && DimMatches(p.aspectTagFilter, obj.aspect.value.tags)
      && DimMatches(p.statusFilter, obj.status)
  }

  /** An encoded component, given to applyFilter, asks exactly what its dimension asks. */
  lemma {:induction false} ComponentMatches(d: Dimension, v: Val)
    requires Encodable(d)
    ensures ApplyFilter(Some(Component(d)), v) == DimMatches(d, v)
  {
    var t := TypeText(d.filterType);
    if |d.values| > 0 {
      assert Component(d) == t + "=" + Join(d.values, ';');
      ValueSetOfJoin(t, d.values);
      CandidatesMeetValues(d.values, v);
    } else {
      ApplyFilterPermissive(Some(Component(d)), v);
    }
  }

  /**
   * The encode/match law. For a perspective whose root and values avoid the
   * separators, the matcher applied to the perspective's own key decides
   * exactly what the perspective asks, for every object whose path lies under
   * the root; any other object is refused unless the root is `Bots`.
   */
  lemma {:induction false} EncodeMatch(p: Perspective, obj: Obj, pubOpts: Option<PubOpts>)
    requires EncodablePerspective(p) && Shaped(obj)
    ensures StartsWith(ObjPath(obj), "/" + p.rootSubject) ==>
      ShouldIEmitThisObj(PerspectiveKey(p), obj, pubOpts) == Ok(PerspectiveMatches(p, obj))
    ensures !StartsWith(ObjPath(obj), "/" + p.rootSubject) && p.rootSubject != "Bots" ==>
      ShouldIEmitThisObj(PerspectiveKey(p), obj, pubOpts) == Ok(false)
  {
    SplitKey(p);
    var comps := KeyComponents(p);
    var ds := Dimensions(p);
    assert comps[0] == "/" + p.rootSubject;
    forall k | 0 <= k < 4
      ensures ComponentAt(comps, k + 1) == Some(Component(ds[k]))
      ensures forall v :: ApplyFilter(Some(Component(ds[k])), v) == DimMatches(ds[k], v)
    {
      assert ds[k] in ds;
      forall v { ComponentMatches(ds[k], v); }
    }
    assert ds[0] == p.aspectFilter && ds[1] == p.subjectTagFilter;
    assert ds[2] == p.aspectTagFilter && ds[3] == p.statusFilter;
    assert ("/" + p.rootSubject)[1..] == p.rootSubject;
    assert BotAbsolutePath[1..] == "Bots";
  }

  /** The perspective oracle for subjects: a subject reaches every perspective
      on its root that does not exclude one of its tags, whatever the other filters. */
  lemma SubjectIgnoresOtherFilters(p: Perspective, q: Perspective, obj: Obj)
    requires EncodablePerspective(p) && EncodablePerspective(q)
    requires WhatAmI(obj) == Subject
    requires p.rootSubject == q.rootSubject && p.subjectTagFilter == q.subjectTagFilter
    ensures ShouldIEmitThisObj(PerspectiveKey(p), obj, None) == ShouldIEmitThisObj(PerspectiveKey(q), obj, None)
  {
    EncodeMatch(p, obj, None);
    EncodeMatch(q, obj, None);
    if p.rootSubject == "Bots" && !StartsWith(ObjPath(obj), "/Bots") {
      SplitKey(p);
      SplitKey(q);
    }
  }

  /**
   * A legacy bot room key `/Bots&<name>` carries no `=`, so with publisher
   * options every component botEmit can pick is permissive: every object not
   * under the `/Bots` path is sent, and none is sent without options.
   */
  lemma {:induction false} BotRoomKeyAcceptsAll(room: Obj, obj: Obj, pubOpts: Option<PubOpts>)
    requires '&' !in JsString(room.name) && '=' !in JsString(room.name)
    requires !StartsWith(ObjPath(obj), BotAbsolutePath)
    ensures ShouldIEmitThisObj(BotsNamespaceString(Some(room)), obj, pubOpts) == Ok(pubOpts.Some?)
  {
    var comps := Split(BotsNamespaceString(Some(room)), '&');
    BotsKeyComponents(room);
    assert comps == [BotAbsolutePath, JsString(room.name)];
    if pubOpts.Some? {
      var c := ComponentAt(comps, pubOpts.value.filterIndex);
      assert c == None || c == Some(BotAbsolutePath) || c == Some(JsString(room.name));
      ApplyFilterPermissive(c, Field(obj, pubOpts.value.filterField));
    }
  }

  // ---------------------------------------------------------------------
  // The finding in the aspect branch.

  /** An aspect record as the perspective tests build one: name, timeout and
      tags at the top level, and no embedded `aspect`. */
  const AspectRecord: Obj := Blank.(hasTimeout := true, name := Str("asp1"),
    tags := Strs(["atag1"]), absolutePath := Undefined)

  /** A key with an aspect-name filter that names that aspect. */
  const AspectKey: seq<string> := ["/", "INCLUDE=" + "asp1", "INCLUDE", "INCLUDE", "INCLUDE"]

  /** As written, the aspect branch throws on the aspect record it is meant for. */
  lemma AspectBranchThrows()
    ensures WhatAmI(AspectRecord) == Aspect
    ensures PerspectiveEmitAsWritten(AspectKey, AspectRecord) == Err(TypeError)
  {
  }

  /** Corrected, that aspect passes a key whose aspect filter names it. */
  lemma AspectBranchCorrected()
    ensures PerspectiveEmit(AspectKey, AspectRecord) == Ok(true)
  {
    var obj := AspectRecord;
    assert WhatAmI(obj) == Aspect;
    var nameFilter, tagFilter := ComponentAt(AspectKey, 1), ComponentAt(AspectKey, 3);
    assert nameFilter == Some("INCLUDE=" + "asp1");
    assert tagFilter == Some("INCLUDE");
    assert ApplyFilter(nameFilter, obj.name) by { IncludeNamesItsValue("asp1"); }
    assert ApplyFilter(tagFilter, obj.tags) by { BareTypeMatchesEverything("INCLUDE", obj.tags); }
  }

  /** A single-value INCLUDE filter passes the value it names. */
  lemma IncludeNamesItsValue(v: string)
    requires ';' !in v && '=' !in v
    ensures ApplyFilter(Some("INCLUDE=" + v), Str(v))
  {
    assert Join([v], ';') == v;
    IncludeMatchesMembers([v], Str(v));
    assert v in Candidates(Str(v));
  }

  /** Corrected, no aspect record ever throws: perspectiveEmit fails only on a
      sample without its embedded aspect or subject. */
  lemma AspectsNeverThrow(comps: seq<string>, obj: Obj)
    requires WhatAmI(obj) != Sample
    ensures PerspectiveEmit(comps, obj).Ok?
  {
  }

  // ---------------------------------------------------------------------
  // Envelope extraction and payload shaping.

  /** The event type of a subject removal, the one event sent with its old state. */
  const SubjectRemove: string := "refocus.internal.realtime.subject.remove"

  /** The event type of a sample that did not change. */
  const SampleNoChange: string := "refocus.internal.realtime.sample.nochange"

  /**
   * parseObject: the `old` state for a subject removal that carries one,
   * else the `new` state when there is one, else the message itself.
   */
  function ParseObject(messg: Obj, key: string): (obj: Obj)
    ensures key == SubjectRemove && messg.oldEntity.Some? ==> obj == messg.oldEntity.value
    ensures !(key == SubjectRemove && messg.oldEntity.Some?) && messg.newEntity.Some? ==>
      obj == messg.newEntity.value
    ensures !(key == SubjectRemove && messg.oldEntity.Some?) && messg.newEntity.None? ==> obj == messg
  {
    if key == SubjectRemove && messg.oldEntity.Some? then messg.oldEntity.value
    else if messg.newEntity.Some? then messg.newEntity.value
    else messg
  }

  /** The body under the single top-level key of an outgoing payload. */
  datatype Body =
    | NewWrapper(inner: Obj)
    | Projection(name: Val, updatedAt: Option<int>, aspectName: Val, aspectTimeout: Val)
    | Whole(obj: Obj)

  /** An outgoing payload `{ [key]: body }`. */
  datatype Envelope = Envelope(key: string, body: Body)

  /**
   * getNewObjAsString, before serialisation: an update is wrapped as
   * `{ new: obj }`, an unchanged sample is cut down to name, update time and
   * the aspect's name and timeout (throwing without an aspect), anything else
   * is sent whole.
   */
  function GetNewObj(key: string, obj: Obj): (r: Result<Envelope>)
    ensures r.Ok? ==> r.value.key == key
    ensures r.Err? <==> key == SampleNoChange && obj.aspect.None?
    ensures EndsWith(key, "update") ==> r == Ok(Envelope(key, NewWrapper(obj)))
    ensures key == SampleNoChange && obj.aspect.Some? ==>
      r == Ok(Envelope(key, Projection(obj.name, obj.updatedAt, obj.aspect.value.name, obj.aspect.value.timeout)))
    ensures r.Ok? && r.value.body.Projection? ==>
      && key == SampleNoChange
      && r.value.body == Projection(obj.name, obj.updatedAt, obj.aspect.value.name, obj.aspect.value.timeout)
    ensures key != SampleNoChange && !EndsWith(key, "update") ==> r == Ok(Envelope(key, Whole(obj)))
  {
    if EndsWith(key, "update") then Ok(Envelope(key, NewWrapper(obj)))
    else if key == SampleNoChange then
      if obj.aspect.None? then Err(TypeError)
      else Ok(Envelope(key, Projection(obj.name, obj.updatedAt, obj.aspect.value.name, obj.aspect.value.timeout)))
    else Ok(Envelope(key, Whole(obj)))
  }

  /** The body of a payload read back as a message object. */
  function BodyAsMessage(b: Body): Obj
  {
    match b
    case NewWrapper(inner) => Blank.(newEntity := Some(inner))
    case Projection(name, updatedAt, aspectName, aspectTimeout) =>
      Blank.(name := name, updatedAt := updatedAt,
        aspect := Some(AspectPart(aspectName, Undefined, aspectTimeout)))
    case Whole(obj) => obj
  }

  /**
   * parseObject undoes getNewObjAsString's wrapping: the object wrapped for an
   * update, or sent whole for a message without `old`/`new`, is what
   * parseObject extracts from the payload body.
   */
  lemma {:induction false} ParseObjectUnwraps(key: string, obj: Obj)
    requires obj.oldEntity.None? && obj.newEntity.None?
    requires key != SampleNoChange
    ensures GetNewObj(key, obj).Ok?
    ensures ParseObject(BodyAsMessage(GetNewObj(key, obj).value.body), key) == obj
  {
    if EndsWith(key, "update") {
      assert key != SubjectRemove by {
        assert SubjectRemove[|SubjectRemove| - 6..] == "remove";
      }
    }
  }

  /** What the transport is asked to deliver an envelope to: the sockets in
      the given rooms, or every socket connected to the namespace. */
  datatype Target = Rooms(ids: seq<Val>) | WholeNamespace

  /** One emission: a namespace, its target, the payload. */
  datatype Emission = Emission(nsp: string, target: Target, envelope: Envelope)

  /**
   * emitToClients and doEmit: an absent or empty room list emits nothing;
   * otherwise one emission of the shaped payload (failing as shaping fails).
   * With client statistics off it goes to the rooms queued on the namespace;
   * with them on, doEmit sends it to every connected socket of the namespace
   * one by one, and the queued rooms play no part.
   */
  function EmitToClients(nsp: string, rooms: Option<seq<Val>>, key: string, obj: Obj,
    clientStats: bool): (r: Result<seq<Emission>>)
    ensures rooms.None? || rooms.value == [] ==> r == Ok([])
    ensures rooms.Some? && rooms.value != [] ==>
      && (r.Err? <==> GetNewObj(key, obj).Err?)
      && (r.Ok? ==> r.value == [Emission(nsp, if clientStats then WholeNamespace else Rooms(rooms.value),
                                         GetNewObj(key, obj).value)])
  {
    if rooms.Some? && |rooms.value| > 0 then
      var env := GetNewObj(key, obj);
      if env.Err? then Err(env.error)
      else Ok([Emission(nsp, if clientStats then WholeNamespace else Rooms(rooms.value), env.value)])
    else Ok([])
  }
}
