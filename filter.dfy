/**
 * The filter engine: the permissive INCLUDE/EXCLUDE matcher over
 * `TYPE=v1;v2` filter strings (src/util/emitUtils.js, repeated verbatim in
 * util/emitUtils.js).
 */
module Filter {
  import opened Results
  import opened JsText
  import opened Entities

  /** True iff at least one candidate is a member of the filter's value set. */
  predicate AnyPresent(valueSet: set<string>, values: seq<string>)
  {
    exists k :: 0 <= k < |values| && values[k] in valueSet
  }

  /** isPresent: scans the candidates and returns at the first one found in the set. */
  method IsPresent(valueSet: set<string>, values: seq<string>) returns (present: bool)
    ensures present <==> AnyPresent(valueSet, values)
    ensures present ==> exists k :: 0 <= k < |values| && values[k] in valueSet
    ensures !present ==> forall k :: 0 <= k < |values| ==> values[k] !in valueSet
  {
    var i := 0;
    while i < |values|
      invariant 0 <= i <= |values|
      invariant forall k :: 0 <= k < i ==> values[k] !in valueSet
    {
      if values[i] in valueSet {
        return true;
      }
      i := i + 1;
    }
    return false;
  }

  /** The filter's value set: the `;`-pieces of the text after the first `=`. */
  function ValueSet(nvp: seq<string>): set<string>
    requires |nvp| >= 2
  {
    set v | v in Split(nvp[1], ';')
  }

  /**
   * applyFilter. A missing or empty filter, a filter without `=`, and a filter
   * whose type is neither INCLUDE nor EXCLUDE all match; otherwise INCLUDE
   * matches when some candidate is in the value set and EXCLUDE when none is.
   */
  function ApplyFilter(filter: Option<string>, objValues: Val): bool
  {
    if filter == None || filter.value == "" then true
    else
      var nvp := Split(filter.value, '=');
      if |nvp| < 2 then true
      else
        var filterType := nvp[0];
        if filterType != "INCLUDE" && filterType != "EXCLUDE" then true
        else
          var present := AnyPresent(ValueSet(nvp), Candidates(objValues));
          if filterType == "INCLUDE" then present else !present
  }

  /** The permissive fallback: no filter, no `=`, or an unknown type matches anything. */
  lemma ApplyFilterPermissive(filter: Option<string>, objValues: Val)
    requires filter == None || filter == Some("") || '=' !in filter.value
      || Split(filter.value, '=')[0] !in {"INCLUDE", "EXCLUDE"}
    ensures ApplyFilter(filter, objValues)
  {
    if filter.Some? && filter.value != "" {
      SplitCount(filter.value, '=');
    }
  }

  /** A bare `INCLUDE` or `EXCLUDE` segment (no `=`) constrains nothing. */
  lemma BareTypeMatchesEverything(filterType: string, objValues: Val)
    requires '=' !in filterType
    ensures ApplyFilter(Some(filterType), objValues)
  {
    ApplyFilterPermissive(Some(filterType), objValues);
  }

  /** `INCLUDE=v1;..;vn` matches exactly when some candidate is one of the values. */
  lemma {:induction false} IncludeMatchesMembers(values: seq<string>, objValues: Val)
    requires |values| >= 1
    requires forall k :: 0 <= k < |values| ==> ';' !in values[k] && '=' !in values[k]
    ensures ApplyFilter(Some("INCLUDE=" + Join(values, ';')), objValues)
      <==> exists c :: c in Candidates(objValues) && c in values
  {
    assert "INCLUDE=" + Join(values, ';') == "INCLUDE" + "=" + Join(values, ';');
    ValueSetOfJoin("INCLUDE", values);
    CandidatesMeetValues(values, objValues);
  }

  /** `EXCLUDE=v1;..;vn` matches exactly when no candidate is one of the values. */
  lemma {:induction false} ExcludeMatchesNonMembers(values: seq<string>, objValues: Val)
    requires |values| >= 1
    requires forall k :: 0 <= k < |values| ==> ';' !in values[k] && '=' !in values[k]
    ensures ApplyFilter(Some("EXCLUDE=" + Join(values, ';')), objValues)
      <==> forall c :: c in Candidates(objValues) ==> c !in values
  {
    assert "EXCLUDE=" + Join(values, ';') == "EXCLUDE" + "=" + Join(values, ';');
    ValueSetOfJoin("EXCLUDE", values);
    CandidatesMeetValues(values, objValues);
  }

  lemma CandidatesMeetValues(values: seq<string>, objValues: Val)
    ensures AnyPresent((set v | v in values), Candidates(objValues))
      <==> exists c :: c in Candidates(objValues) && c in values
  {
    var cands := Candidates(objValues);
    if exists c :: c in cands && c in values {
      var c :| c in cands && c in values;
      var k :| 0 <= k < |cands| && cands[k] == c;
      assert cands[k] in (set v | v in values);
    }
  }

  /** EXCLUDE is the exact negation of INCLUDE over the same value text. */
  lemma {:induction false} ExcludeNegatesInclude(valueText: string, objValues: Val)
    ensures ApplyFilter(Some("EXCLUDE=" + valueText), objValues)
      == !ApplyFilter(Some("INCLUDE=" + valueText), objValues)
  {
    assert "EXCLUDE=" + valueText == "EXCLUDE" + ['='] + valueText;
    assert "INCLUDE=" + valueText == "INCLUDE" + ['='] + valueText;
    SplitAtFirstSeparator("EXCLUDE", valueText, '=');
    SplitAtFirstSeparator("INCLUDE", valueText, '=');
  }

  /** How `TYPE=v1;..;vn` splits: the type, then the joined values, whose
      `;`-pieces are exactly the values. */
  lemma {:induction false} ValueSetOfJoin(filterType: string, values: seq<string>)
    requires '=' !in filterType
    requires |values| >= 1
    requires forall k :: 0 <= k < |values| ==> ';' !in values[k] && '=' !in values[k]
    ensures Split(filterType + "=" + Join(values, ';'), '=') == [filterType, Join(values, ';')]
    ensures ValueSet(Split(filterType + "=" + Join(values, ';'), '=')) == set v | v in values
  {
    var text := Join(values, ';');
    JoinAvoids(values, ';', '=');
    assert filterType + "=" + text == filterType + ['='] + text;
    SplitAtFirstSeparator(filterType, text, '=');
    SplitWithoutSeparator(text, '=');
    SplitJoin(values, ';');
  }

  /** The status oracle: a Critical sample passes `EXCLUDE=Ok` but not `INCLUDE=Ok`. */
  lemma CriticalSampleAgainstOkFilters()
    ensures ApplyFilter(Some("EXCLUDE=Ok"), Str("Critical"))
    ensures !ApplyFilter(Some("INCLUDE=Ok"), Str("Critical"))
  {
    assert Join(["Ok"], ';') == "Ok";
    assert "EXCLUDE=Ok" == "EXCLUDE=" + Join(["Ok"], ';');
    assert "INCLUDE=Ok" == "INCLUDE=" + Join(["Ok"], ';');
    ExcludeMatchesNonMembers(["Ok"], Str("Critical"));
    IncludeMatchesMembers(["Ok"], Str("Critical"));
  }
}
