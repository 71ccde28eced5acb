/** Which inlined calls are active at an address, and which local variable a name means
    there, in one compilation unit. */
module InlineScopes {
  import opened Base

  datatype Tag = Subprogram | InlinedSubroutine | LexicalBlock | Variable | FormalParameter | OtherTag

  /** An entry of the debug-information forest. Whether its ranges contain the address,
      and its name, possibly by way of its abstract origin, are read from attributes;
      reading them may fail. */
  datatype Die = Die(tag: Tag, parent: Option<nat>, owns: Result<bool>, name: Result<Option<string>>)

  type Dies = seq<Die>

  /** Parents come before their children. */
  predicate Forest(dies: Dies) {
    forall i :: 0 <= i < |dies| && dies[i].parent.Some? ==> dies[i].parent.value < i
  }

  // ----- ancestry -----

  /** The proper ancestors of an entry, innermost first. */
  function Ancestors(dies: Dies, i: nat): seq<nat>
    requires Forest(dies) && i < |dies|
  {
    if dies[i].parent.None? then []
    else [dies[i].parent.value] + Ancestors(dies, dies[i].parent.value)
  }

  predicate Descends(dies: Dies, i: nat, from: nat)
    requires Forest(dies) && i < |dies|
  {
    from in Ancestors(dies, i)
  }

  lemma {:induction false} AncestorsAreBefore(dies: Dies, i: nat)
    requires Forest(dies) && i < |dies|
    ensures forall a :: a in Ancestors(dies, i) ==> a < i
  {
    if dies[i].parent.Some? {
      AncestorsAreBefore(dies, dies[i].parent.value);
    }
  }

  lemma {:induction false} DescendsTransitively(dies: Dies, i: nat, j: nat, k: nat)
    requires Forest(dies) && i < |dies| && j < |dies| && Descends(dies, i, j) && Descends(dies, j, k)
    ensures Descends(dies, i, k)
  {
    var parent := dies[i].parent.value;
    if parent != j {
      DescendsTransitively(dies, parent, j, k);
    }
  }

  method IsDescendantOf(dies: Dies, i: nat, from: nat) returns (r: bool)
    requires Forest(dies) && i < |dies|
    ensures r == Descends(dies, i, from)
  {
    var parent, at := dies[i].parent, i;
    while parent.Some?
      invariant at < |dies| && parent == dies[at].parent
      invariant Descends(dies, i, from) == Descends(dies, at, from)
      decreases at
    {
      if parent.value == from {
        return true;
      }
      at := parent.value;
      parent := dies[at].parent;
    }
    return false;
  }

  /** The inlined calls strictly between an entry and the subprogram around it. */
  function InlineBetween(dies: Dies, i: nat, subprogram: nat): set<nat>
    requires Forest(dies) && i < |dies|
  {
    if dies[i].parent.None? || dies[i].parent.value == subprogram then {}
    else
      var parent := dies[i].parent.value;
      (if dies[parent].tag == InlinedSubroutine then {parent} else {}) + InlineBetween(dies, parent, subprogram)
  }

  /** Every inlined call that an entry descends from, and that descends from the
      subprogram, is between the two. */
  lemma {:induction false} InlineAncestorIsBetween(dies: Dies, i: nat, a: nat, subprogram: nat)
    requires Forest(dies) && i < |dies| && a < |dies| && dies[a].tag == InlinedSubroutine
    requires Descends(dies, i, a) && Descends(dies, a, subprogram)
    ensures a in InlineBetween(dies, i, subprogram)
  {
    var parent := dies[i].parent.value;
    if parent == a {
      AncestorsAreBefore(dies, a);
    } else {
      DescendsTransitively(dies, parent, a, subprogram);
      AncestorsAreBefore(dies, parent);
      InlineAncestorIsBetween(dies, parent, a, subprogram);
    }
  }

  /** One more than the number of inlined calls between. */
  method InlineDepth(dies: Dies, i: nat, subprogram: nat) returns (depth: Option<nat>)
    requires Forest(dies) && i < |dies|
    ensures depth == if Descends(dies, i, subprogram) then Some(1 + |InlineBetween(dies, i, subprogram)|) else None
  {
    var count, parent, at := 1, dies[i].parent, i;
    ghost var seen: set<nat> := {};
    while parent.Some?
      invariant at < |dies| && parent == dies[at].parent && at <= i
      invariant Descends(dies, i, subprogram) == Descends(dies, at, subprogram)
      invariant InlineBetween(dies, i, subprogram) == seen + InlineBetween(dies, at, subprogram)
      invariant count == 1 + |seen| && forall a :: a in seen ==> a >= at
      decreases at
    {
      if parent.value == subprogram {
        assert seen + {} == seen;
        return Some(count);
      }
      if dies[parent.value].tag == InlinedSubroutine {
        count := count + 1;
        seen := seen + {parent.value};
      }
      at := parent.value;
      parent := dies[at].parent;
    }
    return None;
  }

  // ----- the active chain -----

  const MAX_CONTEXTS: nat := 8

  predicate Candidate(dies: Dies, subprogram: nat, i: int)
    requires Forest(dies)
  {
    0 <= i < |dies| && dies[i].tag == InlinedSubroutine && Descends(dies, i, subprogram)
  }

  /** An inlined call of this subprogram that contains the address. */
  predicate Active(dies: Dies, subprogram: nat, i: int)
    requires Forest(dies)
  {
    Candidate(dies, subprogram, i) && dies[i].owns == Ok(true)
  }

  predicate Linked(dies: Dies, chain: seq<nat>)
    requires Forest(dies)
  {
    && (forall k :: 0 <= k < |chain| ==> chain[k] < |dies|)
    && (forall k :: 0 < k < |chain| ==> Descends(dies, chain[k], chain[k - 1]))
  }

  /** The chain is exactly the active calls, each inside the one before it, and number
      `i` has exactly `i` inlined calls around it. */
  ghost predicate IsChain(dies: Dies, subprogram: nat, chain: seq<nat>)
    requires Forest(dies)
  {
    && (forall i :: i in chain <==> Active(dies, subprogram, i))
    && Linked(dies, chain)
    && (forall k :: 0 <= k < |chain| ==> |InlineBetween(dies, chain[k], subprogram)| == k)
  }

  lemma {:induction false} LinkedIsNested(dies: Dies, chain: seq<nat>, i: nat, j: nat)
    requires Forest(dies) && Linked(dies, chain) && i < j < |chain|
    ensures Descends(dies, chain[j], chain[i])
  {
    hide Forest, Descends;
    if i < j - 1 {
      LinkedIsNested(dies, chain, i, j - 1);
      DescendsTransitively(dies, chain[j], chain[j - 1], chain[i]);
    }
  }

  /** A chain is totally ordered by ancestry, and the inlined calls around an element are
      exactly the elements before it: none of them is inactive. */
  lemma ChainHasNoGaps(dies: Dies, subprogram: nat, chain: seq<nat>, k: nat)
    requires Forest(dies) && IsChain(dies, subprogram, chain) && k < |chain|
    ensures forall i :: 0 <= i < k ==> Descends(dies, chain[k], chain[i])
    ensures InlineBetween(dies, chain[k], subprogram) == Elements(chain[..k])
  {
    var between, earlier := InlineBetween(dies, chain[k], subprogram), Elements(chain[..k]);
    forall i | 0 <= i < k
      ensures Descends(dies, chain[k], chain[i]) && chain[i] in between
    {
      LinkedIsNested(dies, chain, i, k);
      assert chain[i] in chain && Active(dies, subprogram, chain[i]);
      InlineAncestorIsBetween(dies, chain[k], chain[i], subprogram);
    }
    EarlierAreDistinct(dies, subprogram, chain, k);
    assert earlier <= between && |between| == k == |earlier|;
    SubsetOfSameSize(earlier, between);
  }

  function Elements(s: seq<nat>): set<nat> {
    set x | x in s
  }

  lemma EarlierAreDistinct(dies: Dies, subprogram: nat, chain: seq<nat>, k: nat)
    requires Forest(dies) && IsChain(dies, subprogram, chain) && k <= |chain|
    ensures |Elements(chain[..k])| == k
  {
    hide Active, Forest, InlineBetween;
    DistinctSize(chain[..k]);
  }

  lemma SubsetOfSameSize(a: set<nat>, b: set<nat>)
    requires a <= b && |a| == |b|
    ensures a == b
  {
    if x :| x in b && x !in a {
      assert a <= b - {x} && |b - {x}| == |b| - 1;
      Smaller(a, b - {x});
    }
  }

  lemma {:induction false} Smaller(a: set<nat>, b: set<nat>)
    requires a <= b
    ensures |a| <= |b|
  {
    if a != {} {
      var x :| x in a;
      Smaller(a - {x}, b - {x});
    }
  }

  // ----- discovering the chain -----

  /** An active call and its depth, as collected. */
  datatype Found = Found(index: nat, depth: nat)

  predicate SortedByDepth(s: seq<Found>) {
    forall i, j :: 0 <= i < j < |s| ==> s[i].depth <= s[j].depth
  }

  function Inserted(c: Found, s: seq<Found>): seq<Found> {
    if s == [] || c.depth <= s[0].depth then [c] + s else [s[0]] + Inserted(c, s[1..])
  }

  function Sorted(s: seq<Found>): seq<Found> {
    if s == [] then [] else Inserted(s[0], Sorted(s[1..]))
  }

  lemma {:induction false} InsertedHas(c: Found, s: seq<Found>)
    ensures multiset(Inserted(c, s)) == multiset([c] + s)
  {
    if !(s == [] || c.depth <= s[0].depth) {
      InsertedHas(c, s[1..]);
      assert s == [s[0]] + s[1..];
    }
  }

  lemma {:induction false} InsertedIsSorted(c: Found, s: seq<Found>)
    requires SortedByDepth(s)
    ensures SortedByDepth(Inserted(c, s))
  {
    if !(s == [] || c.depth <= s[0].depth) {
      InsertedIsSorted(c, s[1..]);
      InsertedHas(c, s[1..]);
      SameElements(Inserted(c, s[1..]), [c] + s[1..]);
      FrontIsLeast(s[0], Inserted(c, s[1..]));
    }
  }

  lemma FrontIsLeast(first: Found, rest: seq<Found>)
    requires SortedByDepth(rest) && forall d :: d in rest ==> first.depth <= d.depth
    ensures SortedByDepth([first] + rest)
  {
  }

  lemma {:induction false} SortedKeeps(s: seq<Found>)
    ensures SortedByDepth(Sorted(s)) && multiset(Sorted(s)) == multiset(s)
  {
    if s != [] {
      SortedKeeps(s[1..]);
      InsertedHas(s[0], Sorted(s[1..]));
      InsertedIsSorted(s[0], Sorted(s[1..]));
      assert s == [s[0]] + s[1..];
    }
  }

  function Indices(s: seq<Found>): (r: seq<nat>)
    ensures |r| == |s| && forall i :: 0 <= i < |s| ==> r[i] == s[i].index
  {
    seq(|s|, i requires 0 <= i < |s| => s[i].index)
  }

  predicate Distinct(s: seq<nat>) {
    forall i, j :: 0 <= i < j < |s| ==> s[i] != s[j]
  }

  lemma {:induction false} DistinctSize(s: seq<nat>)
    requires Distinct(s)
    ensures |Elements(s)| == |s|
  {
    if s != [] {
      var n := |s| - 1;
      DistinctSize(s[..n]);
      assert s[n] !in s[..n];
      assert Elements(s) == Elements(s[..n]) + {s[n]};
    } else {
      assert Elements(s) == {};
    }
  }

  lemma {:induction false} AscendingFills(p: seq<nat>, i: nat)
    requires i < |p| && forall k :: 0 <= k < |p| ==> p[k] < |p|
    requires forall k, l :: 0 <= k < l < |p| ==> p[k] < p[l]
    ensures p[i] == i
  {
    AtLeast(p, i);
    AtMost(p, i);
  }

  lemma {:induction false} AtLeast(p: seq<nat>, i: nat)
    requires i < |p| && forall k, l :: 0 <= k < l < |p| ==> p[k] < p[l]
    ensures p[i] >= i
  {
    if i > 0 {
      AtLeast(p, i - 1);
      assert p[i - 1] < p[i];
    }
  }

  lemma {:induction false} AtMost(p: seq<nat>, i: nat)
    requires i < |p| && (forall k :: 0 <= k < |p| ==> p[k] < |p|)
    requires forall k, l :: 0 <= k < l < |p| ==> p[k] < p[l]
    ensures p[i] <= i
    decreases |p| - i
  {
    if i < |p| - 1 {
      AtMost(p, i + 1);
      assert p[i] < p[i + 1];
    }
  }

  function Depth(dies: Dies, subprogram: nat, i: nat): nat
    requires Forest(dies) && i < |dies|
  {
    1 + |InlineBetween(dies, i, subprogram)|
  }

  /** `s` is the active calls, each once, by depth. */
  ghost predicate Collected(dies: Dies, subprogram: nat, s: seq<nat>)
    requires Forest(dies)
  {
    && Distinct(s) && (forall i :: i in s <==> Active(dies, subprogram, i))
    && (forall k :: 0 <= k < |s| ==> s[k] < |dies|)
  }

  lemma ChainIsDistinct(dies: Dies, subprogram: nat, chain: seq<nat>)
    requires Forest(dies) && IsChain(dies, subprogram, chain)
    ensures Collected(dies, subprogram, chain)
  {
    hide Active, Forest, InlineBetween;
  }

  lemma CollectedSize(dies: Dies, subprogram: nat, s: seq<nat>, c: seq<nat>)
    requires Forest(dies) && Collected(dies, subprogram, s) && Collected(dies, subprogram, c)
    ensures |s| == |c|
  {
    hide Active, Forest;
    DistinctSize(s);
    DistinctSize(c);
    assert Elements(s) == Elements(c);
  }

  /** If the active calls form a chain, sorting them by depth gives it. */
  lemma SortedIsChain(dies: Dies, subprogram: nat, chain: seq<nat>, s: seq<nat>)
    requires Forest(dies) && IsChain(dies, subprogram, chain) && Collected(dies, subprogram, s)
    requires forall i, j :: 0 <= i < j < |s| ==> Depth(dies, subprogram, s[i]) <= Depth(dies, subprogram, s[j])
    ensures s == chain
  {
    hide Active, Forest, InlineBetween, Linked;
    ChainIsDistinct(dies, subprogram, chain);
    CollectedSize(dies, subprogram, s, chain);
    var p := seq(|s|, i requires 0 <= i < |s| => Depth(dies, subprogram, s[i]) - 1);
    forall i | 0 <= i < |s|
      ensures p[i] < |s| && chain[p[i]] == s[i]
    {
      assert s[i] in s && s[i] in chain;
      var k :| 0 <= k < |chain| && chain[k] == s[i];
      assert |InlineBetween(dies, chain[k], subprogram)| == k;
    }
    forall k, l | 0 <= k < l < |p|
      ensures p[k] < p[l]
    {
      assert s[k] != s[l];
    }
    forall i | 0 <= i < |s|
      ensures s[i] == chain[i]
    {
      AscendingFills(p, i);
    }
  }

  /** The attributes of every inlined call of the subprogram can be read. */
  predicate Readable(dies: Dies, subprogram: nat)
    requires Forest(dies)
  {
    forall i :: 0 <= i < |dies| && Candidate(dies, subprogram, i) ==> dies[i].owns.Ok?
  }

  predicate DepthsRight(dies: Dies, subprogram: nat, s: seq<Found>)
    requires Forest(dies)
  {
    forall k :: 0 <= k < |s| ==> s[k].index < |dies| && s[k].depth == Depth(dies, subprogram, s[k].index) <= MAX_CONTEXTS
  }

  method CollectActive(dies: Dies, subprogram: nat) returns (r: Result<seq<Found>>)
    requires Forest(dies)
    ensures r.Ok? ==>
      && Readable(dies, subprogram) && Collected(dies, subprogram, Indices(r.value))
      && DepthsRight(dies, subprogram, r.value)
    ensures r.Err? ==>
      !Readable(dies, subprogram) || exists i :: Active(dies, subprogram, i) && Depth(dies, subprogram, i) > MAX_CONTEXTS
  {
    hide Descends, InlineBetween;
    var found: seq<Found>, index := [], 0;
    while index < |dies|
      invariant index <= |dies| && DepthsRight(dies, subprogram, found)
      invariant forall i :: 0 <= i < index && Candidate(dies, subprogram, i) ==> dies[i].owns.Ok?
      invariant Distinct(Indices(found))
      invariant forall i :: i in Indices(found) <==> i < index && Active(dies, subprogram, i)
    {
      var owned := false;
      if dies[index].tag == InlinedSubroutine {
        var below := IsDescendantOf(dies, index, subprogram);
        if below {
          if dies[index].owns.Err? {
            return Err(dies[index].owns.error);
          }
          owned := dies[index].owns.value;
        }
      }
      assert owned <==> Active(dies, subprogram, index);
      if owned {
        var depth := InlineDepth(dies, index, subprogram);
        if depth.value > MAX_CONTEXTS {
          return Err(RuntimeError);
        }
        IndicesAppend(found, Found(index, depth.value));
        found := found + [Found(index, depth.value)];
      }
      index := index + 1;
    }
    return Ok(found);
  }

  lemma IndicesAppend(s: seq<Found>, c: Found)
    ensures Indices(s + [c]) == Indices(s) + [c.index]
  {
  }

  lemma SortingKeepsCollected(dies: Dies, subprogram: nat, s: seq<Found>)
    requires Forest(dies) && Collected(dies, subprogram, Indices(s)) && DepthsRight(dies, subprogram, s)
    ensures Collected(dies, subprogram, Indices(Sorted(s))) && DepthsRight(dies, subprogram, Sorted(s))
    ensures |Sorted(s)| == |s| && SortedByDepth(Sorted(s))
  {
    hide Active, Forest, Depth, Sorted;
    SortedKeeps(s);
    var t := Sorted(s);
    SameElements(s, t);
    assert |t| == |multiset(t)| == |multiset(s)| == |s|;
    IndexMembers(s);
    IndexMembers(t);
    DistinctSize(Indices(s));
    assert Elements(Indices(s)) == Elements(Indices(t));
    SizeIsDistinct(Indices(t));
    forall k | 0 <= k < |t|
      ensures t[k].index < |dies| && t[k].depth == Depth(dies, subprogram, t[k].index) <= MAX_CONTEXTS
    {
      assert t[k] in s;
    }
    forall i
      ensures i in Indices(t) <==> i in Indices(s)
    {
      assert i in Elements(Indices(t)) <==> i in Elements(Indices(s));
    }
  }

  lemma SameElements(s: seq<Found>, t: seq<Found>)
    requires multiset(s) == multiset(t)
    ensures forall c :: c in s <==> c in t
  {
    forall c
      ensures c in s <==> c in t
    {
      assert c in s <==> c in multiset(s);
      assert c in t <==> c in multiset(t);
    }
  }

  lemma IndexMembers(s: seq<Found>)
    ensures forall i :: i in Indices(s) <==> exists c :: c in s && c.index == i
  {
    forall i | i in Indices(s)
      ensures exists c :: c in s && c.index == i
    {
      var k :| 0 <= k < |s| && Indices(s)[k] == i;
      assert s[k] in s;
    }
    forall c | c in s
      ensures c.index in Indices(s)
    {
      var k :| 0 <= k < |s| && s[k] == c;
      assert Indices(s)[k] == c.index;
    }
  }

  lemma {:induction false} SizeIsDistinct(s: seq<nat>)
    requires |Elements(s)| == |s|
    ensures Distinct(s)
  {
    if s != [] {
      var n := |s| - 1;
      assert Elements(s) == Elements(s[..n]) + {s[n]};
      SizeBound(s[..n]);
      SizeIsDistinct(s[..n]);
    }
  }

  lemma {:induction false} SizeBound(s: seq<nat>)
    ensures |Elements(s)| <= |s|
  {
    if s != [] {
      SizeBound(s[..|s| - 1]);
      assert Elements(s) == Elements(s[..|s| - 1]) + {s[|s| - 1]};
    } else {
      assert Elements(s) == {};
    }
  }

  /** Depths 1, 2, 3 and so on, each call inside the one before it. */
  predicate Contiguous(dies: Dies, s: seq<Found>)
    requires Forest(dies)
  {
    && (forall k :: 0 <= k < |s| ==> s[k].depth == k + 1)
    && Linked(dies, Indices(s))
  }

  method CheckContiguous(dies: Dies, s: seq<Found>) returns (ok: bool)
    requires Forest(dies) && forall k :: 0 <= k < |s| ==> s[k].index < |dies|
    ensures ok == Contiguous(dies, s)
  {
    hide Descends, Forest;
    var index := 0;
    while index < |s|
      invariant index <= |s|
      invariant forall k :: 0 <= k < index ==> s[k].depth == k + 1
      invariant forall k :: 0 < k < index ==> Descends(dies, Indices(s)[k], Indices(s)[k - 1])
    {
      if s[index].depth != index + 1 {
        return false;
      }
      if index > 0 {
        var below := IsDescendantOf(dies, s[index].index, s[index - 1].index);
        if !below {
          assert !Descends(dies, Indices(s)[index], Indices(s)[index - 1]);
          return false;
        }
      }
      index := index + 1;
    }
    return true;
  }

  /** The collected calls, sorted, are contiguous exactly when there is a chain. */
  lemma ContiguousIffChain(dies: Dies, subprogram: nat, s: seq<Found>)
    requires Forest(dies) && Collected(dies, subprogram, Indices(s)) && DepthsRight(dies, subprogram, s) && SortedByDepth(s)
    ensures Contiguous(dies, s) ==> IsChain(dies, subprogram, Indices(s))
    ensures forall chain :: IsChain(dies, subprogram, chain) ==> Contiguous(dies, s) && |chain| == |s|
  {
    hide Descends, InlineBetween, Active, Forest;
    forall chain | IsChain(dies, subprogram, chain)
      ensures Contiguous(dies, s) && |chain| == |s|
    {
      SortedIsChain(dies, subprogram, chain, Indices(s));
    }
  }

  /** An active call deeper than the limit leaves no short chain. */
  lemma TooDeep(dies: Dies, subprogram: nat, i: int)
    requires Forest(dies) && Active(dies, subprogram, i) && Depth(dies, subprogram, i) > MAX_CONTEXTS
    ensures forall chain :: IsChain(dies, subprogram, chain) ==> |chain| > MAX_CONTEXTS
  {
    forall chain | IsChain(dies, subprogram, chain)
      ensures |chain| > MAX_CONTEXTS
    {
      assert i in chain;
    }
  }

  /** The chain of active inlined calls, outermost first. It is found exactly when the
      active calls form a chain of at most eight. */
  method DiscoverChain(dies: Dies, subprogram: nat) returns (r: Result<seq<nat>>)
    requires Forest(dies)
    ensures r.Ok? ==> Readable(dies, subprogram) && IsChain(dies, subprogram, r.value) && |r.value| <= MAX_CONTEXTS
    ensures r.Err? ==>
      !Readable(dies, subprogram) || forall chain :: IsChain(dies, subprogram, chain) ==> |chain| > MAX_CONTEXTS
  {
    hide Depth, Descends, Readable, Forest, Contiguous, Linked;
    var candidates := CollectActive(dies, subprogram);
    if candidates.Err? {
      if Readable(dies, subprogram) {
        ghost var i :| Active(dies, subprogram, i) && Depth(dies, subprogram, i) > MAX_CONTEXTS;
        TooDeep(dies, subprogram, i);
      }
      return Err(candidates.error);
    }
    if |candidates.value| == 0 {
      NoActiveCalls(dies, subprogram);
      return Ok([]);
    }
    var sorted := Sorted(candidates.value);
    SortingKeepsCollected(dies, subprogram, candidates.value);
    ContiguousIffChain(dies, subprogram, sorted);
    if |candidates.value| > MAX_CONTEXTS {
      return Err(RuntimeError);
    }
    var ok := CheckContiguous(dies, sorted);
    if !ok {
      return Err(RuntimeError);
    }
    return Ok(Indices(sorted));
  }

  lemma NoActiveCalls(dies: Dies, subprogram: nat)
    requires Forest(dies) && Collected(dies, subprogram, [])
    ensures IsChain(dies, subprogram, [])
  {
  }
}
