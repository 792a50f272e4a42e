/**
 * The older matcher of util/emitUtils.js. Its isPresent, applyFilter, botEmit,
 * key encoders, getNewObjAsString and parseObject are the same code as in
 * src/util/emitUtils.js and are the members of `Filter`, `Keys` and `Emit`;
 * only the kind test, perspectiveEmit and shouldIEmitThisObj differ.
 */
module LegacyEmit {
  import opened Results
  import opened JsText
  import opened Entities
  import opened Filter
  import opened Keys
  import Emit

  /** isThisSubject: an object owning `parentAbsolutePath` is a subject. */
  function IsThisSubject(obj: Obj): (subject: bool)
    ensures subject <==> WhatAmI(obj) == Subject
  {
    obj.hasParentAbsolutePath
  }

  /** perspectiveEmit of the older file: a subject is judged by the subject-tag
      filter, every other object as a sample by all four filters. */
  function PerspectiveEmit(comps: seq<string>, obj: Obj): (r: Result<bool>)
    ensures |comps| < 2 ==> r == Ok(true)
    ensures |comps| >= 2 && !IsThisSubject(obj) ==> r == Emit.SampleEmit(comps, obj)
  {
    if |comps| < 2 then Ok(true)
    else if IsThisSubject(obj) then Ok(ApplyFilter(Emit.ComponentAt(comps, 2), obj.tags))
    else Emit.SampleEmit(comps, obj)
  }

  /** shouldIEmitThisObj of the older file: the same routing over the older perspectiveEmit. */
  function ShouldIEmitThisObj(nsp: string, obj: Obj, pubOpts: Option<Emit.PubOpts>): (r: Result<bool>)
    ensures !StartsWith(ObjPath(obj), Split(nsp, '&')[0]) ==>
      r == Ok(Split(nsp, '&')[0] == BotAbsolutePath && Emit.BotEmit(Split(nsp, '&'), obj, pubOpts))
  {
    var comps := Split(nsp, '&');
    if StartsWith(ObjPath(obj), comps[0]) then PerspectiveEmit(comps, obj)
    else if comps[0] == BotAbsolutePath then Ok(Emit.BotEmit(comps, obj, pubOpts))
    else Ok(false)
  }

  /** On subjects and samples the two matchers decide every key alike. */
  lemma AgreesOnSubjectsAndSamples(nsp: string, obj: Obj, pubOpts: Option<Emit.PubOpts>)
    requires WhatAmI(obj) != Aspect
    ensures ShouldIEmitThisObj(nsp, obj, pubOpts) == Emit.ShouldIEmitThisObj(nsp, obj, pubOpts)
  {
  }

  /** An aspect record, which has no embedded aspect, makes the older matcher
      throw on any perspective key under its path with filter components. */
  lemma AspectsThrow(comps: seq<string>, obj: Obj)
    requires WhatAmI(obj) == Aspect && obj.aspect.None?
    requires |comps| >= 2
    ensures PerspectiveEmit(comps, obj) == Err(TypeError)
  {
  }
}
