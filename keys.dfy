/**
 * The subscription-key codec: the canonical `&`-separated key of a
 * perspective (getPerspectiveNamespaceString) and of a bot room
 * (getBotsNamespaceString). Both files of the source hold identical copies.
 */
module Keys {
  import opened Results
  import opened JsText
  import opened Entities

  /** The fixed dimension order: aspect name, subject tag, aspect tag, status. */
  function Dimensions(p: Perspective): (ds: seq<Dimension>)
    ensures |ds| == 4
  {
    [p.aspectFilter, p.subjectTagFilter, p.aspectTagFilter, p.statusFilter]
  }

  /** `'' + inst[name + 'Type']`. */
  function TypeText(t: Option<string>): string
  {
    if t.Some? then t.value else "undefined"
  }

  /** One key component: `Type=v1;v2` for a non-empty list, bare `Type` otherwise. */
  function Component(d: Dimension): string
  {
    if |d.values| > 0 then TypeText(d.filterType) + "=" + Join(d.values, ';')
    else TypeText(d.filterType)
  }

  /** The `&Component` segments of a list of dimensions, in order. */
  function Segments(ds: seq<Dimension>): string
  {
    if ds == [] then "" else Segments(ds[..|ds| - 1]) + "&" + Component(ds[|ds| - 1])
  }

  lemma ConcatAssoc(a: string, b: string, c: string)
    ensures a + b + c == a + (b + c)
  {
  }

  /** The text one loop step appends is `&` and the component. */
  lemma SegmentText(d: Dimension)
    ensures |d.values| > 0 ==> "&" + TypeText(d.filterType) + "=" + Join(d.values, ';') == "&" + Component(d)
    ensures |d.values| == 0 ==> "&" + TypeText(d.filterType) == "&" + Component(d)
  {
  }

  lemma SegmentsExtend(ds: seq<Dimension>, i: nat)
    requires i < |ds|
    ensures Segments(ds[..i + 1]) == Segments(ds[..i]) + ("&" + Component(ds[i]))
  {
    assert ds[..i + 1][..i] == ds[..i];
  }

  /** The perspective's key: `/root` followed by the four segments. */
  function PerspectiveKey(p: Perspective): string
  {
    "/" + p.rootSubject + Segments(Dimensions(p))
  }

  /** The five components a key is made of, in the order the matcher reads them. */
  function KeyComponents(p: Perspective): (comps: seq<string>)
    ensures |comps| == 5
  {
    ["/" + p.rootSubject] + seq(4, k requires 0 <= k < 4 => Component(Dimensions(p)[k]))
  }

  /** getPerspectiveNamespaceString: appends one segment per dimension to `'/' + root`. */
  method GetPerspectiveNamespaceString(p: Perspective) returns (namespace: string)
    ensures namespace == PerspectiveKey(p)
  {
    var filters := Dimensions(p);
    namespace := "/";
    if p.rootSubject != "" {
      namespace := namespace + p.rootSubject;
    }
    assert namespace == "/" + p.rootSubject;
    var i := 0;
    assert Segments(filters[..i]) == "" by { assert filters[..i] == []; }
    while i < |filters|
      invariant 0 <= i <= |filters|
      invariant namespace == "/" + p.rootSubject + Segments(filters[..i])
    {
      var d := filters[i];
      ghost var before := namespace;
      if |d.values| > 0 {
        namespace := namespace + ("&" + TypeText(d.filterType) + "=" + Join(d.values, ';'));
      } else {
        namespace := namespace + ("&" + TypeText(d.filterType));
      }
      SegmentText(d);
      assert namespace == before + ("&" + Component(d));
      SegmentsExtend(filters, i);
      ConcatAssoc("/" + p.rootSubject, Segments(filters[..i]), "&" + Component(d));
      i := i + 1;
    }
    assert filters[..i] == filters;
  }

  /** A dimension whose type and values avoid the separators `&`, `=` and `;`. */
  predicate Encodable(d: Dimension)
  {
    && '&' !in TypeText(d.filterType) && '=' !in TypeText(d.filterType)
    && forall k :: 0 <= k < |d.values| ==>
         '&' !in d.values[k] && ';' !in d.values[k] && '=' !in d.values[k]
  }

  /** A perspective whose root and dimensions avoid the separators. */
  predicate EncodablePerspective(p: Perspective)
  {
    '&' !in p.rootSubject && forall d :: d in Dimensions(p) ==> Encodable(d)
  }

  lemma {:induction false} ComponentAvoidsAmpersand(d: Dimension)
    requires Encodable(d)
    ensures '&' !in Component(d)
  {
    if |d.values| > 0 {
      JoinAvoids(d.values, ';', '&');
    }
  }

  /** The key is the `&`-join of its five components. */
  lemma KeyIsJoin(p: Perspective)
    ensures PerspectiveKey(p) == Join(KeyComponents(p), '&')
  {
    var ds := Dimensions(p);
    var cs := KeyComponents(p);
    var s1 := Segments(ds[..1]);
    var s2 := Segments(ds[..2]);
    var s3 := Segments(ds[..3]);
    assert ds[..1][..0] == [] && ds[..2][..1] == ds[..1] && ds[..3][..2] == ds[..2] && ds[..3] == ds[..|ds| - 1];
    assert cs[1] == Component(ds[0]) && cs[2] == Component(ds[1]);
    assert cs[3] == Component(ds[2]) && cs[4] == Component(ds[3]);
    assert Segments(ds[..0]) == "";
    assert s1 == "" + "&" + cs[1];
    assert s2 == s1 + "&" + cs[2];
    assert s3 == s2 + "&" + cs[3];
    assert Segments(ds) == s3 + "&" + cs[4];
    var j4 := Join(cs[4..], '&');
    var j3 := Join(cs[3..], '&');
    var j2 := Join(cs[2..], '&');
    var j1 := Join(cs[1..], '&');
    assert cs[4..] == [cs[4]] && cs[3..][1..] == cs[4..] && cs[2..][1..] == cs[3..] && cs[1..][1..] == cs[2..];
    assert j3 == cs[3] + "&" + j4;
    assert j2 == cs[2] + "&" + j3;
    assert j1 == cs[1] + "&" + j2;
    assert Join(cs, '&') == cs[0] + "&" + j1;
    RegroupFive(cs[0], cs[1], cs[2], cs[3], cs[4]);
  }

  /** Regrouping the five components from the key's left nesting to the join's right one. */
  lemma RegroupFive(c0: string, c1: string, c2: string, c3: string, c4: string)
    ensures c0 + ((("" + "&" + c1) + "&" + c2) + "&" + c3 + "&" + c4)
         == c0 + "&" + (c1 + "&" + (c2 + "&" + (c3 + "&" + c4)))
  {
  }

  /**
   * Splitting an encodable perspective's key on `&` gives back exactly its five
   * components: `/root`, then aspect, subject-tag, aspect-tag and status.
   */
  lemma {:induction false} SplitKey(p: Perspective)
    requires EncodablePerspective(p)
    ensures Split(PerspectiveKey(p), '&') == KeyComponents(p)
  {
    var cs := KeyComponents(p);
    forall k | 0 <= k < |cs| ensures '&' !in cs[k] {
      if k > 0 {
        assert Dimensions(p)[k - 1] in Dimensions(p);
        ComponentAvoidsAmpersand(Dimensions(p)[k - 1]);
      }
    }
    KeyIsJoin(p);
    SplitJoin(cs, '&');
  }

  /** A dimension with an explicit type and separator-free values. */
  predicate Canonical(d: Dimension)
  {
    Encodable(d) && d.filterType.Some?
  }

  /** A component determines its dimension. */
  lemma {:induction false} ComponentInjective(d: Dimension, e: Dimension)
    requires Canonical(d) && Canonical(e)
    requires Component(d) == Component(e)
    ensures d == e
  {
    var c := Component(d);
    if |d.values| > 0 {
      DecodeComponent(d);
      if |e.values| > 0 {
        DecodeComponent(e);
        assert Split(Join(d.values, ';'), ';') == d.values by { SplitJoin(d.values, ';'); }
        assert Split(Join(e.values, ';'), ';') == e.values by { SplitJoin(e.values, ';'); }
      } else {
        SplitCount(c, '=');
        assert false;
      }
    } else if |e.values| > 0 {
      DecodeComponent(e);
      SplitCount(c, '=');
      assert false;
    }
  }

  /** How a component with values splits on `=`. */
  lemma {:induction false} DecodeComponent(d: Dimension)
    requires Encodable(d) && |d.values| > 0
    ensures Split(Component(d), '=') == [TypeText(d.filterType), Join(d.values, ';')]
  {
    var t := TypeText(d.filterType);
    var text := Join(d.values, ';');
    JoinAvoids(d.values, ';', '=');
    assert Component(d) == t + ['='] + text;
    SplitAtFirstSeparator(t, text, '=');
    SplitWithoutSeparator(text, '=');
  }

  /** Canonical keys: equal keys come only from equal perspectives. */
  lemma {:induction false} PerspectiveKeyInjective(p: Perspective, q: Perspective)
    requires EncodablePerspective(p) && EncodablePerspective(q)
    requires forall d :: d in Dimensions(p) + Dimensions(q) ==> d.filterType.Some?
    requires PerspectiveKey(p) == PerspectiveKey(q)
    ensures p == q
  {
    SplitKey(p);
    SplitKey(q);
    var cp, cq := KeyComponents(p), KeyComponents(q);
    assert cp == cq;
    assert ("/" + p.rootSubject)[1..] == p.rootSubject;
    assert ("/" + q.rootSubject)[1..] == q.rootSubject;
    forall k | 0 <= k < 4 ensures Dimensions(p)[k] == Dimensions(q)[k] {
      assert Dimensions(p)[k] in Dimensions(p);
      assert Dimensions(q)[k] in Dimensions(q);
      assert Dimensions(p)[k] in Dimensions(p) + Dimensions(q);
      assert Dimensions(q)[k] in Dimensions(p) + Dimensions(q);
      assert cp[k + 1] == cq[k + 1];
      ComponentInjective(Dimensions(p)[k], Dimensions(q)[k]);
    }
    assert p.aspectFilter == Dimensions(p)[0] && q.aspectFilter == Dimensions(q)[0];
    assert p.subjectTagFilter == Dimensions(p)[1] && q.subjectTagFilter == Dimensions(q)[1];
    assert p.aspectTagFilter == Dimensions(p)[2] && q.aspectTagFilter == Dimensions(q)[2];
    assert p.statusFilter == Dimensions(p)[3] && q.statusFilter == Dimensions(q)[3];
  }

  /** The bot namespace's reserved root path. */
  const BotAbsolutePath: string := "/Bots"

  /** getBotsNamespaceString: `/Bots` without a room, `/Bots&<name>` with one. */
  function BotsNamespaceString(room: Option<Obj>): (namespace: string)
    ensures room == None ==> namespace == BotAbsolutePath
    ensures room.Some? ==> namespace == BotAbsolutePath + "&" + JsString(room.value.name)
  {
    if room.Some? then BotAbsolutePath + "&" + JsString(room.value.name) else BotAbsolutePath
  }

  /** A room key splits into `/Bots` and the room name. */
  lemma BotsKeyComponents(room: Obj)
    requires '&' !in JsString(room.name)
    ensures Split(BotsNamespaceString(Some(room)), '&') == [BotAbsolutePath, JsString(room.name)]
  {
    var name := JsString(room.name);
    assert BotsNamespaceString(Some(room)) == BotAbsolutePath + ['&'] + name;
    SplitAtFirstSeparator(BotAbsolutePath, name, '&');
    SplitWithoutSeparator(name, '&');
  }
}
