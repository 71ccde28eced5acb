/** The local variables of a selected inlined call: the catalogue of their names, and the
    lookup of one name. */
module InlineLocals {
  import opened Base
  import opened InlineScopes

  datatype Kind = ParameterKind | VariableKind

  predicate IsLocal(die: Die) {
    die.tag == Variable || die.tag == FormalParameter
  }

  function KindOf(die: Die): Kind {
    if die.tag == FormalParameter then ParameterKind else VariableKind
  }

  // ----- how deep a local lies -----

  /** The number of lexical blocks between a scope and the inlined call, if those are all
      that is between and all of them contain the address. */
  function DepthAbove(dies: Dies, i: nat, call: nat): (r: Result<Option<nat>>)
    requires Forest(dies) && i < |dies|
  {
    if dies[i].parent.None? then Ok(None)
    else
      var parent := dies[i].parent.value;
      if parent == call then Ok(Some(0))
      else if dies[parent].tag != LexicalBlock then Ok(None)
      else if dies[parent].owns.Err? then Err(dies[parent].owns.error)
      else if !dies[parent].owns.value then Ok(None)
      else
        var above := DepthAbove(dies, parent, call);
        if above.Err? || above.value.None? then above else Ok(Some(above.value.value + 1))
  }

  method ScopeDepth(dies: Dies, i: nat, call: nat) returns (r: Result<Option<nat>>)
    requires Forest(dies) && i < |dies|
    ensures r == DepthAbove(dies, i, call)
  {
    var parent, depth, at := dies[i].parent, 0, i;
    while parent.Some?
      invariant at < |dies| && parent == dies[at].parent
      invariant DepthAbove(dies, i, call) ==
        var above := DepthAbove(dies, at, call);
        if above.Err? || above.value.None? then above else Ok(Some(above.value.value + depth))
      decreases at
    {
      if parent.value == call {
        return Ok(Some(depth));
      }
      var scope := dies[parent.value];
      if scope.tag == InlinedSubroutine || scope.tag != LexicalBlock {
        return Ok(None);
      }
      if scope.owns.Err? {
        return Err(scope.owns.error);
      }
      if !scope.owns.value {
        return Ok(None);
      }
      depth, at := depth + 1, parent.value;
      parent := dies[at].parent;
    }
    return Ok(None);
  }

  // ----- which entry a name means -----

  /** The depth of entry `i`, if it is a local of that name in an active scope. */
  function Match(dies: Dies, call: nat, name: string, i: nat): Option<nat>
    requires Forest(dies) && i < |dies|
  {
    if IsLocal(dies[i]) && dies[i].name == Ok(Some(name)) && DepthAbove(dies, i, call).Ok?
    then DepthAbove(dies, i, call).value else None
  }

  datatype Pick = Pick(index: nat, depth: nat)

  /** The deepest match so far; a second one at the same depth is ambiguous. */
  function Best(dies: Dies, call: nat, name: string, upto: nat): (r: Result<Option<Pick>>)
    requires Forest(dies) && upto <= |dies|
  {
    if upto == 0 then Ok(None)
    else
      var best, depth := Best(dies, call, name, upto - 1), Match(dies, call, name, upto - 1);
      if best.Err? || depth.None? then best
      else if best.value.None? || depth.value > best.value.value.depth then Ok(Some(Pick(upto - 1, depth.value)))
      else if depth.value == best.value.value.depth then Err(RuntimeError)
      else best
  }

  /** The pick is the only match at the greatest depth. */
  lemma {:induction false} BestIsUniqueDeepest(dies: Dies, call: nat, name: string, upto: nat)
    requires Forest(dies) && upto <= |dies| && Best(dies, call, name, upto).Ok?
    ensures var best := Best(dies, call, name, upto).value;
            if best.None? then forall j :: 0 <= j < upto ==> Match(dies, call, name, j).None?
            else
              && best.value.index < upto && Match(dies, call, name, best.value.index) == Some(best.value.depth)
              && forall j :: 0 <= j < upto && j != best.value.index && Match(dies, call, name, j).Some? ==>
                   Match(dies, call, name, j).value < best.value.depth
  {
    hide Match;
    if upto > 0 {
      BestIsUniqueDeepest(dies, call, name, upto - 1);
    }
  }

  lemma {:induction false} AmbiguityLasts(dies: Dies, call: nat, name: string, upto: nat, end: nat)
    requires Forest(dies) && upto <= end <= |dies| && Best(dies, call, name, upto).Err?
    ensures Best(dies, call, name, end) == Best(dies, call, name, upto)
    decreases end
  {
    if upto < end {
      AmbiguityLasts(dies, call, name, upto, end - 1);
    }
  }

  /** Two matches are equally deep, and none before the second of them is deeper. */
  ghost predicate Ambiguous(dies: Dies, call: nat, name: string, upto: nat)
    requires Forest(dies) && upto <= |dies|
  {
    exists j: nat, k: nat :: j < k < upto && Clash(dies, call, name, j, k)
  }

  ghost predicate Clash(dies: Dies, call: nat, name: string, j: nat, k: nat)
    requires Forest(dies) && j < k < |dies|
  {
    && Match(dies, call, name, k).Some? && Match(dies, call, name, j) == Match(dies, call, name, k)
    && forall i: nat :: i < k && Match(dies, call, name, i).Some? ==>
         Match(dies, call, name, i).value <= Match(dies, call, name, k).value
  }

  /** A name means nothing definite exactly when there are such matches. */
  lemma {:induction false} BestFailsIff(dies: Dies, call: nat, name: string, upto: nat)
    requires Forest(dies) && upto <= |dies|
    ensures Best(dies, call, name, upto).Err? <==> Ambiguous(dies, call, name, upto)
  {
    hide Match, Forest;
    if upto > 0 {
      var k := upto - 1;
      BestFailsIff(dies, call, name, k);
      var best := Best(dies, call, name, k);
      if best.Ok? {
        BestIsUniqueDeepest(dies, call, name, k);
        if Best(dies, call, name, upto).Err? {
          assert Clash(dies, call, name, best.value.value.index, k);
        } else if Ambiguous(dies, call, name, upto) {
          var j: nat, l: nat :| j < l < upto && Clash(dies, call, name, j, l);
          assert false;
        }
      } else {
        var j: nat, l: nat :| j < l < k && Clash(dies, call, name, j, l);
        assert l < upto;
      }
    }
  }

  // ----- the catalogue -----

  const MAX_LOCALS: nat := 64

  datatype Entry = Entry(depth: nat, kind: Kind)

  /** A name is listed exactly when it means something, with its depth and kind; it is
      not ambiguous. */
  predicate Entered(dies: Dies, call: nat, upto: nat, entries: map<string, Entry>, name: string)
    requires Forest(dies) && upto <= |dies|
  {
    if name == "" then name !in entries
    else
      var best := Best(dies, call, name, upto);
      && best.Ok?
      && (name in entries <==> best.value.Some?)
      && (name in entries ==>
            best.value.value.index < upto
            && entries[name] == Entry(best.value.value.depth, KindOf(dies[best.value.value.index])))
  }

  ghost predicate Catalogues(dies: Dies, call: nat, upto: nat, entries: map<string, Entry>)
    requires Forest(dies) && upto <= |dies|
  {
    forall name :: Entered(dies, call, upto, entries, name)
  }

  /** What one more entry makes of the catalogue. */
  function Updated(entries: map<string, Entry>, name: string, entry: Entry): (r: Result<map<string, Entry>>) {
    if name !in entries then
      if |entries| >= MAX_LOCALS then Err(RuntimeError) else Ok(entries[name := entry])
    else if entry.depth > entries[name].depth then Ok(entries[name := entry])
    else if entry.depth == entries[name].depth then Err(RuntimeError)
    else Ok(entries)
  }

  lemma Unlisted(dies: Dies, call: nat, index: nat, entries: map<string, Entry>)
    requires Forest(dies) && index < |dies| && Catalogues(dies, call, index, entries)
    requires forall name :: name != "" ==> Match(dies, call, name, index).None?
    ensures Catalogues(dies, call, index + 1, entries)
  {
    hide Match;
    var next := index + 1;
    forall name
      ensures Entered(dies, call, next, entries, name)
    {
      assert Entered(dies, call, index, entries, name);
    }
  }

  lemma Listed(dies: Dies, call: nat, index: nat, entries: map<string, Entry>, name: string, depth: nat)
    requires Forest(dies) && index < |dies| && Catalogues(dies, call, index, entries) && name != ""
    requires Match(dies, call, name, index) == Some(depth)
    requires forall other :: other != name ==> Match(dies, call, other, index).None?
    requires Updated(entries, name, Entry(depth, KindOf(dies[index]))).Ok?
    ensures Catalogues(dies, call, index + 1, Updated(entries, name, Entry(depth, KindOf(dies[index]))).value)
  {
    hide Match;
    var entries' := Updated(entries, name, Entry(depth, KindOf(dies[index]))).value;
    var next := index + 1;
    forall other
      ensures Entered(dies, call, next, entries', other)
    {
      assert Entered(dies, call, index, entries, other);
    }
  }

  /** The scopes of all locals can be read, and the names of those in active scopes. */
  predicate CatalogueReads(dies: Dies, call: nat, upto: nat)
    requires Forest(dies) && upto <= |dies|
  {
    forall i :: 0 <= i < upto && IsLocal(dies[i]) ==>
      DepthAbove(dies, i, call).Ok? && (DepthAbove(dies, i, call).value.Some? ==> dies[i].name.Ok?)
  }

  /** The name an entry stands for in the catalogue, if it has one and is in an active scope. */
  function NameAt(dies: Dies, call: nat, i: nat): set<string>
    requires Forest(dies) && i < |dies|
  {
    if IsLocal(dies[i]) && DepthAbove(dies, i, call).Ok? && DepthAbove(dies, i, call).value.Some?
       && dies[i].name.Ok? && dies[i].name.value.Some? && dies[i].name.value.value != ""
    then {dies[i].name.value.value} else {}
  }

  function NamesBelow(dies: Dies, call: nat, upto: nat): (names: set<string>)
    requires Forest(dies) && upto <= |dies|
  {
    if upto == 0 then {} else NamesBelow(dies, call, upto - 1) + NameAt(dies, call, upto - 1)
  }

  lemma {:induction false} NamesGrow(dies: Dies, call: nat, upto: nat, end: nat)
    requires Forest(dies) && upto <= end <= |dies|
    ensures NamesBelow(dies, call, upto) <= NamesBelow(dies, call, end)
    ensures |NamesBelow(dies, call, upto)| <= |NamesBelow(dies, call, end)|
    decreases end
  {
    hide NameAt, Forest;
    if upto < end {
      NamesGrow(dies, call, upto, end - 1);
      NoFewer(NamesBelow(dies, call, end - 1), NamesBelow(dies, call, end));
    }
  }

  lemma {:induction false} NoFewer<T>(some: set<T>, all: set<T>)
    requires some <= all
    ensures |some| <= |all|
  {
    if some != {} {
      var x :| x in some;
      NoFewer(some - {x}, all - {x});
    }
  }

  /** The catalogue can be made: everything it needs can be read, no name is ambiguous at
      any moment, and there are not too many. */
  ghost predicate Listable(dies: Dies, call: nat)
    requires Forest(dies)
  {
    && CatalogueReads(dies, call, |dies|) && |NamesBelow(dies, call, |dies|)| <= MAX_LOCALS
    && forall name :: name != "" ==> !Ambiguous(dies, call, name, |dies|)
  }

  lemma CataloguedIsListable(dies: Dies, call: nat, entries: map<string, Entry>)
    requires Forest(dies) && Catalogues(dies, call, |dies|, entries) && CatalogueReads(dies, call, |dies|)
    requires |NamesBelow(dies, call, |dies|)| <= MAX_LOCALS
    ensures Listable(dies, call)
  {
    hide CatalogueReads, NamesBelow, Ambiguous, Best, Forest;
    forall name | name != ""
      ensures !Ambiguous(dies, call, name, |dies|)
    {
      assert Entered(dies, call, |dies|, entries, name);
      BestFailsIff(dies, call, name, |dies|);
    }
  }

  /** A catalogue that cannot take the next entry cannot be made. */
  lemma FullOrAmbiguous(dies: Dies, call: nat, index: nat, entries: map<string, Entry>, name: string, depth: nat)
    requires Forest(dies) && index < |dies| && Catalogues(dies, call, index, entries) && name != ""
    requires entries.Keys == NamesBelow(dies, call, index) && NameAt(dies, call, index) == {name}
    requires Match(dies, call, name, index) == Some(depth)
    requires Updated(entries, name, Entry(depth, KindOf(dies[index]))).Err?
    ensures !Listable(dies, call)
  {
    hide Match, NameAt, Forest, CatalogueReads, Ambiguous;
    assert Entered(dies, call, index, entries, name);
    if name in entries {
      assert Best(dies, call, name, index + 1).Err?;
      AmbiguityLasts(dies, call, name, index + 1, |dies|);
      BestFailsIff(dies, call, name, |dies|);
    } else {
      assert NamesBelow(dies, call, index + 1) == entries.Keys + {name};
      assert |entries.Keys| == |entries| && |entries.Keys + {name}| == |entries| + 1;
      NamesGrow(dies, call, index + 1, |dies|);
    }
  }

  /** What the first entries have come to. */
  ghost predicate SoFar(dies: Dies, call: nat, index: nat, entries: map<string, Entry>)
    requires Forest(dies) && index <= |dies|
  {
    && Catalogues(dies, call, index, entries) && CatalogueReads(dies, call, index)
    && entries.Keys == NamesBelow(dies, call, index) && |entries| <= MAX_LOCALS
  }

  lemma Skips(dies: Dies, call: nat, index: nat, entries: map<string, Entry>)
    requires Forest(dies) && index < |dies| && SoFar(dies, call, index, entries) && NameAt(dies, call, index) == {}
    requires IsLocal(dies[index]) ==>
      DepthAbove(dies, index, call).Ok? && (DepthAbove(dies, index, call).value.Some? ==> dies[index].name.Ok?)
    ensures SoFar(dies, call, index + 1, entries)
  {
    hide DepthAbove, Catalogues, Forest;
    Unlisted(dies, call, index, entries);
  }

  lemma Takes(dies: Dies, call: nat, index: nat, entries: map<string, Entry>, name: string, depth: nat)
    requires Forest(dies) && index < |dies| && SoFar(dies, call, index, entries) && name != ""
    requires IsLocal(dies[index]) && DepthAbove(dies, index, call) == Ok(Some(depth)) && dies[index].name == Ok(Some(name))
    ensures var updated := Updated(entries, name, Entry(depth, KindOf(dies[index])));
            if updated.Ok? then SoFar(dies, call, index + 1, updated.value) else !Listable(dies, call)
  {
    hide DepthAbove, Catalogues, Forest, Listable, Updated;
    var entry := Entry(depth, KindOf(dies[index]));
    assert NameAt(dies, call, index) == {name} && Match(dies, call, name, index) == Some(depth);
    if Updated(entries, name, entry).Ok? {
      Listed(dies, call, index, entries, name, depth);
      UpdatedSize(entries, name, entry);
    } else {
      FullOrAmbiguous(dies, call, index, entries, name, depth);
    }
  }

  lemma Unreadable(dies: Dies, call: nat, index: nat)
    requires Forest(dies) && index < |dies| && IsLocal(dies[index])
    requires DepthAbove(dies, index, call).Err? || (DepthAbove(dies, index, call).value.Some? && dies[index].name.Err?)
    ensures !Listable(dies, call)
  {
    hide DepthAbove, Forest, NamesBelow, Ambiguous;
  }

  lemma AllTaken(dies: Dies, call: nat, entries: map<string, Entry>)
    requires Forest(dies) && SoFar(dies, call, |dies|, entries)
    ensures Listable(dies, call)
  {
    hide Catalogues, CatalogueReads, NamesBelow, Forest, Listable;
    assert |entries| == |entries.Keys|;
    CataloguedIsListable(dies, call, entries);
  }

  /** The catalogue of the locals of one inlined call: it is refused exactly when it cannot
      be made. */
  method DiscoverLocals(dies: Dies, call: nat) returns (r: Result<map<string, Entry>>)
    requires Forest(dies)
    ensures r.Ok? <==> Listable(dies, call)
    ensures r.Ok? ==> Catalogues(dies, call, |dies|, r.value) && |r.value| <= MAX_LOCALS
    ensures r.Ok? ==> r.value.Keys == NamesBelow(dies, call, |dies|)
    ensures r.Ok? ==> forall i :: 0 <= i < |dies| && IsLocal(dies[i]) ==> DepthAbove(dies, i, call).Ok?
  {
    hide DepthAbove, Catalogues, Forest, Listable, NamesBelow;
    var entries: map<string, Entry>, index := map[], 0;
    EmptyCatalogue(dies, call);
    while index < |dies|
      invariant index <= |dies| && SoFar(dies, call, index, entries)
    {
      if !IsLocal(dies[index]) {
        Skips(dies, call, index, entries);
        index := index + 1;
        continue;
      }
      var depth := ScopeDepth(dies, index, call);
      if depth.Err? {
        Unreadable(dies, call, index);
        return Err(depth.error);
      }
      if depth.value.None? {
        Skips(dies, call, index, entries);
        index := index + 1;
        continue;
      }
      var name := dies[index].name;
      if name.Err? {
        Unreadable(dies, call, index);
        return Err(name.error);
      }
      if name.value.None? || name.value.value == "" {
        Skips(dies, call, index, entries);
        index := index + 1;
        continue;
      }
      var updated := Updated(entries, name.value.value, Entry(depth.value.value, KindOf(dies[index])));
      Takes(dies, call, index, entries, name.value.value, depth.value.value);
      if updated.Err? {
        return Err(updated.error);
      }
      entries, index := updated.value, index + 1;
    }
    AllTaken(dies, call, entries);
    return Ok(entries);
  }

  lemma EmptyCatalogue(dies: Dies, call: nat)
    requires Forest(dies)
    ensures Catalogues(dies, call, 0, map[]) && NamesBelow(dies, call, 0) == {}
  {
  }

  lemma UpdatedSize(entries: map<string, Entry>, name: string, entry: Entry)
    requires |entries| <= MAX_LOCALS && Updated(entries, name, entry).Ok?
    ensures |Updated(entries, name, entry).value| <= MAX_LOCALS
    ensures Updated(entries, name, entry).value.Keys == entries.Keys + {name}
  {
    if name in entries {
      assert entries[name := entry].Keys == entries.Keys;
    } else {
      assert entries[name := entry].Keys == entries.Keys + {name};
    }
  }

  // ----- the lookup -----

  /** The lookup reads the name of every local of the unit, and the scopes of those that
      have the requested name. */
  predicate LookupReads(dies: Dies, call: nat, name: string, upto: nat)
    requires Forest(dies) && upto <= |dies|
  {
    forall i :: 0 <= i < upto && IsLocal(dies[i]) ==>
      && dies[i].name.Ok?
      && (dies[i].name == Ok(Some(name)) ==> DepthAbove(dies, i, call).Ok?)
  }

  /** The entry whose value is inspected, found exactly when everything can be read and
      the name has one deepest match at every moment. */
  method LookUpLocal(dies: Dies, call: nat, name: string) returns (r: Result<nat>)
    requires Forest(dies)
    ensures r.Ok? <==>
      && LookupReads(dies, call, name, |dies|)
      && Best(dies, call, name, |dies|).Ok? && Best(dies, call, name, |dies|).value.Some?
    ensures r.Ok? ==> r.value == Best(dies, call, name, |dies|).value.value.index
  {
    hide DepthAbove, Forest;
    var best: Option<Pick>, index := None, 0;
    while index < |dies|
      invariant index <= |dies|
      invariant LookupReads(dies, call, name, index) && Best(dies, call, name, index) == Ok(best)
    {
      index := index + 1;
      if !IsLocal(dies[index - 1]) {
        continue;
      }
      var local := dies[index - 1].name;
      if local.Err? {
        return Err(local.error);
      }
      if local.value.None? || local.value.value != name {
        continue;
      }
      var depth := ScopeDepth(dies, index - 1, call);
      if depth.Err? {
        return Err(depth.error);
      }
      if depth.value.None? {
        continue;
      }
      if best.None? || depth.value.value > best.value.depth {
        best := Some(Pick(index - 1, depth.value.value));
        continue;
      }
      if depth.value.value == best.value.depth {
        AmbiguityLasts(dies, call, name, index, |dies|);
        return Err(RuntimeError);
      }
    }
    if best.None? {
      return Err(RuntimeError);
    }
    return Ok(best.value.index);
  }

  /** Whenever the catalogue lists a name, the lookup selects the entry that was listed,
      the only one at the greatest depth, provided the name of every local of the unit
      can be read; and otherwise it fails. */
  lemma CatalogueAgreesWithLookup(dies: Dies, call: nat, entries: map<string, Entry>, name: string)
    requires Forest(dies) && Catalogues(dies, call, |dies|, entries) && name in entries
    requires forall i :: 0 <= i < |dies| && IsLocal(dies[i]) ==> DepthAbove(dies, i, call).Ok?
    ensures Best(dies, call, name, |dies|).Ok? && Best(dies, call, name, |dies|).value.Some?
    ensures var pick := Best(dies, call, name, |dies|).value.value;
            && pick.index < |dies|
            && entries[name] == Entry(pick.depth, KindOf(dies[pick.index]))
            && Match(dies, call, name, pick.index) == Some(pick.depth)
            && forall j :: 0 <= j < |dies| && j != pick.index && Match(dies, call, name, j).Some? ==>
                 Match(dies, call, name, j).value < pick.depth
    ensures LookupReads(dies, call, name, |dies|) <==> forall i :: 0 <= i < |dies| && IsLocal(dies[i]) ==> dies[i].name.Ok?
  {
    hide DepthAbove, Match, Best, Forest;
    assert Entered(dies, call, |dies|, entries, name);
    BestIsUniqueDeepest(dies, call, name, |dies|);
  }

  /** A subprogram with an inlined call that has a variable `x`, and a variable beside the
      call whose name cannot be read. */
  function UnreadableBeside(): Dies {
    [Die(Subprogram, None, Ok(true), Ok(None)),
     Die(InlinedSubroutine, Some(0), Ok(true), Ok(None)),
     Die(Variable, Some(1), Ok(true), Ok(Some("x"))),
     Die(Variable, Some(0), Ok(true), Err(RuntimeError))]
  }

  /** The catalogue of the call lists `x`, but `x` cannot be looked up. */
  lemma ListedButNotFound()
    ensures var dies, entries := UnreadableBeside(), map["x" := Entry(0, VariableKind)];
            && Forest(dies) && Catalogues(dies, 1, 4, entries) && !LookupReads(dies, 1, "x", 4)
  {
    var dies, entries := UnreadableBeside(), map["x" := Entry(0, VariableKind)];
    EmptyCatalogue(dies, 1);
    Unlisted(dies, 1, 0, map[]);
    Unlisted(dies, 1, 1, map[]);
    assert DepthAbove(dies, 2, 1) == Ok(Some(0));
    Listed(dies, 1, 2, map[], "x", 0);
    Unlisted(dies, 1, 3, entries);
    assert IsLocal(dies[3]) && dies[3].name.Err?;
  }
}
