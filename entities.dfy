/**
 * The event payloads the gateway inspects, as the JavaScript code sees them:
 * one record with the fields the core reads. A field that is not set reads as
 * `Undefined`; a nested object that is not set is `None`.
 */
module Entities {
  import opened Results
  import JsText

  /** A leaf field value: absent, a string, or an array of strings. */
  datatype Val = Undefined | Str(s: string) | Strs(items: seq<string>)

  /** The embedded aspect of a sample (`obj.aspect`). */
  datatype AspectPart = AspectPart(name: Val, tags: Val, timeout: Val)

  /** The embedded subject of a sample (`obj.subject`). */
  datatype SubjectPart = SubjectPart(tags: Val)

  /** One entry of a room type's bot list (`obj.type.bots[i]`). */
  datatype BotRef = BotRef(id: Val)

  /** A room's type (`obj.type`), whose `bots` list may be absent. */
  datatype RoomType = RoomType(bots: Option<seq<BotRef>>)

  /** One filter dimension of a perspective: its `...FilterType` field (absent
      reads as the text `undefined`) and its `...Filter` value list. */
  datatype Dimension = Dimension(filterType: Option<string>, values: seq<string>)

  /** The perspective fields the key is built from; an absent or empty root
      subject is the empty string. */
  datatype Perspective = Perspective(
    rootSubject: string,
    aspectFilter: Dimension,
    subjectTagFilter: Dimension,
    aspectTagFilter: Dimension,
    statusFilter: Dimension)

  /**
   * A real-time payload or envelope value. `hasParentAbsolutePath` and
   * `hasTimeout` record whether the object owns those properties (the source
   * tests them with `hasOwnProperty`); `oldEntity` and `newEntity` are the
   * `old` and `new` wrappers of an update or remove message; `perspective`
   * holds the fields a perspective record carries (all absent on other objects).
   */
  datatype Obj = Obj(
    hasParentAbsolutePath: bool,
    hasTimeout: bool,
    absolutePath: Val,
    name: Val,
    status: Val,
    tags: Val,
    id: Val,
    roomId: Val,
    botId: Val,
    updatedAt: Option<int>,
    aspect: Option<AspectPart>,
    subject: Option<SubjectPart>,
    roomType: Option<RoomType>,
    oldEntity: Option<Obj>,
    newEntity: Option<Obj>,
    perspective: Perspective)

  /** The entity kinds the matcher distinguishes. */
  datatype Kind = Subject | Aspect | Sample

  /** Which kind an object is taken for: a subject if it owns
      `parentAbsolutePath`, else an aspect if it owns `timeout`, else a sample. */
  function WhatAmI(obj: Obj): (kind: Kind)
    ensures kind == Subject <==> obj.hasParentAbsolutePath
    ensures kind == Aspect <==> !obj.hasParentAbsolutePath && obj.hasTimeout
  {
    if obj.hasParentAbsolutePath then Subject
    else if obj.hasTimeout then Aspect
    else Sample
  }

  /** The candidate list applyFilter compares: a missing value is the default
      `[]`, a scalar is wrapped as a one-element list, an array is used as is. */
  function Candidates(v: Val): (values: seq<string>)
    ensures v.Undefined? ==> values == []
    ensures v.Str? ==> values == [v.s]
    ensures v.Strs? ==> values == v.items
  {
    match v
    case Undefined => []
    case Str(s) => [s]
    case Strs(items) => items
  }

  /** JavaScript's string conversion of a field value (`'' + v`). */
  function JsString(v: Val): string
  {
    match v
    case Undefined => "undefined"
    case Str(s) => s
    case Strs(items) => JsText.Join(items, ',')
  }

  /** `'/' + obj.absolutePath`, the path the routing prefix check compares. */
  function ObjPath(obj: Obj): (path: string)
    ensures |path| >= 1 && path[0] == '/'
  {
    "/" + JsString(obj.absolutePath)
  }

  /** `obj[field]` for the field names the model records; any other name is
      read as `undefined`. */
  function Field(obj: Obj, field: string): Val
  {
    if field == "absolutePath" then obj.absolutePath
    else if field == "name" then obj.name
    else if field == "status" then obj.status
    else if field == "tags" then obj.tags
    else if field == "id" then obj.id
    else if field == "roomId" then obj.roomId
    else if field == "botId" then obj.botId
    else Undefined
  }

  /** A record with every field absent, from which examples are built. */
  const Blank: Obj := Obj(false, false, Undefined, Undefined, Undefined, Undefined,
    Undefined, Undefined, Undefined, None, None, None, None, None, None, NoPerspective)

  /** The perspective fields of an object that is not a perspective. */
  const NoDimension: Dimension := Dimension(None, [])
  const NoPerspective: Perspective :=
    Perspective("", NoDimension, NoDimension, NoDimension, NoDimension)
}
