/**
 * The client generator's bookkeeping: which operations survive the tag and operation-id
 * filter, the order of the init function's parameters, the init body's statement order, the
 * server URL it records, and how each generated function and its diagnostics are collected.
 */
module ClientGenerator {
  import opened Common
  import opened Diagnostics
  import opened Syntax
  import opened OpenApi
  import opened RemoteFunction
  import opened ResourceFunction

  // ---------------------------------------------------------------------------
  // Operation filtering
  // ---------------------------------------------------------------------------

  /** The user's allow-lists: tags and operation ids. */
  datatype Filter = Filter(tags: seq<string>, operations: seq<string>)

  /** `!Collections.disjoint(a, b)`. */
  predicate Overlaps(a: seq<string>, b: seq<string>) {
    exists x :: x in a && x in b
  }

  /**
   * `shouldFilterOperation`: an operation is kept when there is no filter at all, or when one
   * of its tags is in the tag filter, or its id is in the operation filter. A null tag list or
   * a null id never matches.
   */
  function ShouldFilterOperation(filterTags: seq<string>, filterOperations: seq<string>,
                                 operationTags: Option<seq<string>>, operationId: Option<string>): (keep: bool)
    ensures keep <==>
      (filterTags == [] && filterOperations == [])
      || (operationTags.Some? && exists t :: t in filterTags && t in operationTags.value)
      || (operationId.Some? && operationId.value in filterOperations)
  {
    var hasFilterTags := filterTags != [];
    var hasFilterOperations := filterOperations != [];
    var hasOperationTags := operationTags.Some?;
    var hasOperationId := operationId.Some?;
    if !hasFilterTags && !hasFilterOperations then true
    else
      (hasFilterTags && hasOperationTags && Overlaps(filterTags, operationTags.value))
      || (hasFilterOperations && hasOperationId && operationId.value in filterOperations)
  }

  /** With no filter every operation is kept; with a filter, an operation with neither tags
      nor an id is never kept. */
  lemma FilterEdgeCases(filter: Filter, op: Operation)
    ensures filter.tags == [] && filter.operations == [] ==>
      ShouldFilterOperation(filter.tags, filter.operations, op.tags, op.operationId)
    ensures (filter.tags != [] || filter.operations != []) && op.tags.None? && op.operationId.None? ==>
      !ShouldFilterOperation(filter.tags, filter.operations, op.tags, op.operationId)
  {
  }

  predicate Kept(filter: Filter, op: Operation) {
    ShouldFilterOperation(filter.tags, filter.operations, op.tags, op.operationId)
  }

  /** The operations of one path that pass the filter. */
  function KeptOperations(operations: map<HttpMethod, Operation>, filter: Filter): (r: map<HttpMethod, Operation>)
    ensures r.Keys <= operations.Keys
    ensures forall m :: m in r ==> r[m] == operations[m] && Kept(filter, r[m])
    ensures forall m :: m in operations && Kept(filter, operations[m]) ==> m in r
  {
    map m | m in operations && Kept(filter, operations[m]) :: operations[m]
  }

  /**
   * What `filterOperations` returns: exactly the paths with at least one kept operation, each
   * with exactly its kept operations.
   */
  function FilteredPaths(paths: map<string, map<HttpMethod, Operation>>, filter: Filter)
    : (r: map<string, map<HttpMethod, Operation>>)
    ensures forall p :: p in r ==> p in paths && r[p] != map[]
    ensures forall p, m :: p in r && m in r[p] ==>
      m in paths[p] && r[p][m] == paths[p][m] && Kept(filter, r[p][m])
    ensures forall p, m :: p in paths && m in paths[p] && Kept(filter, paths[p][m]) ==> p in r && m in r[p]
  {
    map p | p in paths && KeptOperations(paths[p], filter) != map[] :: KeptOperations(paths[p], filter)
  }

  /** Without a filter, `filterOperations` keeps every path that has an operation, whole. */
  lemma NoFilterKeepsEverything(paths: map<string, map<HttpMethod, Operation>>, filter: Filter)
    requires filter.tags == [] && filter.operations == []
    ensures forall p :: p in paths && paths[p] != map[] ==> p in FilteredPaths(paths, filter)
    ensures forall p :: p in FilteredPaths(paths, filter) ==> FilteredPaths(paths, filter)[p] == paths[p]
  {
    forall p | p in paths && paths[p] != map[]
      ensures p in FilteredPaths(paths, filter)
    {
      var m :| m in paths[p];
      FilterEdgeCases(filter, paths[p][m]);
    }
    forall p | p in FilteredPaths(paths, filter)
      ensures FilteredPaths(paths, filter)[p] == paths[p]
    {
      forall m | m in paths[p]
        ensures Kept(filter, paths[p][m])
      {
        FilterEdgeCases(filter, paths[p][m]);
      }
    }
  }

  /** The kept operations of one path, visiting its entries in an unspecified order. */
  method FilterPathOperations(operationMap: map<HttpMethod, Operation>, filter: Filter)
    returns (operations: map<HttpMethod, Operation>)
    ensures operations == KeptOperations(operationMap, filter)
  {
    operations := map[];
    var remaining := operationMap.Keys;
    while remaining != {}
      invariant remaining <= operationMap.Keys
      invariant forall m :: m in operations <==> m in operationMap && m !in remaining && Kept(filter, operationMap[m])
      invariant forall m :: m in operations ==> operations[m] == operationMap[m]
      decreases remaining
    {
      var httpMethod :| httpMethod in remaining;
      remaining := remaining - {httpMethod};
      var operation := operationMap[httpMethod];
      if ShouldFilterOperation(filter.tags, filter.operations, operation.tags, operation.operationId) {
        operations := operations[httpMethod := operation];
      }
    }
  }

  /** `filterOperations`, visiting the paths in an unspecified (hash) order. */
  method FilterOperations(paths: map<string, map<HttpMethod, Operation>>, filter: Filter)
    returns (filteredOperations: map<string, map<HttpMethod, Operation>>)
    ensures filteredOperations == FilteredPaths(paths, filter)
  {
    filteredOperations := map[];
    var remaining := paths.Keys;
    while remaining != {}
      invariant remaining <= paths.Keys
      invariant forall p :: p in filteredOperations <==>
        p in paths && p !in remaining && KeptOperations(paths[p], filter) != map[]
      invariant forall p :: p in filteredOperations ==> filteredOperations[p] == KeptOperations(paths[p], filter)
      decreases remaining
    {
      var path :| path in remaining;
      remaining := remaining - {path};
      var operationMap := paths[path];
      if operationMap == map[] {
        continue;
      }
      var operations := FilterPathOperations(operationMap, filter);
      if operations != map[] {
        filteredOperations := filteredOperations[path := operations];
      }
    }
  }


  // ---------------------------------------------------------------------------
  // Init-function parameter order
  // ---------------------------------------------------------------------------

  /** The two parameter groups `sortParameters` keeps. */
  datatype ParamKind = RequiredKind | DefaultableKind

  predicate OfKind(p: ParamNode, k: ParamKind) {
    match k
    case RequiredKind => p.Required?
    case DefaultableKind => p.Defaultable?
  }

  /** The names of the parameters of one kind, in input order (repeats included). */
  function NamesOf(ps: seq<ParamNode>, k: ParamKind): (names: seq<string>)
    ensures |names| <= |ps|
    ensures forall n :: n in names <==> exists i :: 0 <= i < |ps| && OfKind(ps[i], k) && ps[i].name == n
  {
    if ps == [] then []
    else
      var init := ps[..|ps| - 1];
      assert forall i :: 0 <= i < |init| ==> init[i] == ps[i];
      NamesOf(init, k) + (if OfKind(ps[|ps| - 1], k) then [ps[|ps| - 1].name] else [])
  }

  /** The name-to-parameter map of one kind (`HashMap.put` for each in turn). */
  function LastOfKind(ps: seq<ParamNode>, k: ParamKind): (m: map<string, ParamNode>)
    ensures forall n :: n in m <==> n in NamesOf(ps, k)
    ensures forall n :: n in m ==> OfKind(m[n], k) && m[n].name == n
  {
    if ps == [] then map[]
    else
      var init := ps[..|ps| - 1];
      var last := ps[|ps| - 1];
      var m := LastOfKind(init, k);
      if OfKind(last, k) then m[last.name := last] else m
  }

  /** A later parameter of a name replaces an earlier one: the map holds the last parameter of
      each name. */
  lemma {:induction false} LastOfKindIsLast(ps: seq<ParamNode>, k: ParamKind, j: int)
    requires 0 <= j < |ps| && OfKind(ps[j], k)
    requires forall i :: j < i < |ps| ==> !(OfKind(ps[i], k) && ps[i].name == ps[j].name)
    ensures ps[j].name in LastOfKind(ps, k) && LastOfKind(ps, k)[ps[j].name] == ps[j]
  {
    var init := ps[..|ps| - 1];
    if j < |ps| - 1 {
      assert init[j] == ps[j];
      LastOfKindIsLast(init, k, j);
    }
  }

  /** The first occurrence of each value, in order (what a `LinkedHashSet` keeps). */
  function Distinct(s: seq<string>): (d: seq<string>)
    ensures forall x :: x in d <==> x in s
    ensures NoDup(d)
    ensures NoDup(s) ==> d == s
  {
    if s == [] then []
    else
      var init := s[..|s| - 1];
      var d := Distinct(init);
      assert s == init + [s[|s| - 1]];
      if s[|s| - 1] in d then d else d + [s[|s| - 1]]
  }

  /** Duplicates of a sorted sequence are neighbours, so its distinct values are strictly
      ascending. */
  lemma {:induction false} DistinctOfSorted(s: seq<string>)
    requires Sorted(s)
    ensures Sorted(Distinct(s))
  {
    if s != [] {
      var init := s[..|s| - 1];
      assert Sorted(init);
      DistinctOfSorted(init);
      var d := Distinct(init);
      forall i | 0 <= i < |d|
        ensures LessEq(d[i], s[|s| - 1])
      {
        assert d[i] in init;
      }
    }
  }

  function Nodes(names: seq<string>, m: map<string, ParamNode>): (r: seq<ParamNode>)
    requires forall n :: n in names ==> n in m
    ensures |r| == |names| && forall i :: 0 <= i < |names| ==> r[i] == m[names[i]]
  {
    seq(|names|, i requires 0 <= i < |names| => m[names[i]])
  }

  lemma NodesSnoc(names: seq<string>, n: string, m: map<string, ParamNode>)
    requires forall x :: x in names ==> x in m
    requires n in m
    ensures Nodes(names + [n], m) == Nodes(names, m) + [m[n]]
  {
  }

  /** Every sorted name of a kind has its parameter in the name map. */
  lemma SortedNamesKnown(ps: seq<ParamNode>, k: ParamKind)
    ensures forall n :: n in AscendingOrder(NamesOf(ps, k)) <==> n in NamesOf(ps, k)
  {
    var sorted := AscendingOrder(NamesOf(ps, k));
    forall n
      ensures n in sorted <==> n in NamesOf(ps, k)
    {
      assert n in sorted <==> n in multiset(sorted);
      assert n in NamesOf(ps, k) <==> n in multiset(NamesOf(ps, k));
    }
  }

  /** One group of `sortParameters`' output: each distinct name of that kind once, in
      ascending order, with the parameter last given under that name. */
  function SortedGroup(ps: seq<ParamNode>, k: ParamKind): seq<ParamNode> {
    SortedNamesKnown(ps, k);
    Nodes(Distinct(AscendingOrder(NamesOf(ps, k))), LastOfKind(ps, k))
  }

  /** `ps[j]` is `p`, and no later parameter has `p`'s kind and name. */
  predicate LastAt(ps: seq<ParamNode>, k: ParamKind, j: int, p: ParamNode) {
    0 <= j < |ps| && ps[j] == p && forall l :: j < l < |ps| ==> !(OfKind(ps[l], k) && ps[l].name == p.name)
  }

  /** The map's parameter for a name is the last parameter of that kind and name. */
  lemma {:induction false} LastOfKindWitness(ps: seq<ParamNode>, k: ParamKind, n: string) returns (j: int)
    requires n in LastOfKind(ps, k)
    ensures LastAt(ps, k, j, LastOfKind(ps, k)[n])
  {
    var init := ps[..|ps| - 1];
    var last := ps[|ps| - 1];
    var m := LastOfKind(ps, k);
    var before := LastOfKind(init, k);
    assert m == if OfKind(last, k) then before[last.name := last] else before;
    if OfKind(last, k) && last.name == n {
      j := |ps| - 1;
    } else {
      assert n in before && m[n] == before[n];
      j := LastOfKindWitness(init, k, n);
      forall l | j < l < |ps|
        ensures !(OfKind(ps[l], k) && ps[l].name == n)
      {
        if l < |init| {
          assert ps[l] == init[l];
        } else {
          assert ps[l] == last;
        }
      }
      assert m[n].name == n;
    }
  }

  /** Each parameter of a group is of the group's kind and is the last parameter given its
      name. */
  lemma SortedGroupIsLast(ps: seq<ParamNode>, k: ParamKind)
    ensures var g := SortedGroup(ps, k);
      forall i :: 0 <= i < |g| ==> OfKind(g[i], k) && exists j :: LastAt(ps, k, j, g[i])
  {
    var m := LastOfKind(ps, k);
    SortedNamesKnown(ps, k);
    var d := Distinct(AscendingOrder(NamesOf(ps, k)));
    var g := SortedGroup(ps, k);
    forall i | 0 <= i < |g|
      ensures OfKind(g[i], k) && exists j :: LastAt(ps, k, j, g[i])
    {
      assert g[i] == m[d[i]];
      var j := LastOfKindWitness(ps, k, d[i]);
    }
  }

  /** A group is in strictly ascending name order. */
  lemma SortedGroupAscending(ps: seq<ParamNode>, k: ParamKind)
    ensures var g := SortedGroup(ps, k);
      forall i, j :: 0 <= i < j < |g| ==> LessEq(g[i].name, g[j].name) && g[i].name != g[j].name
  {
    var names := AscendingOrder(NamesOf(ps, k));
    SortedNamesKnown(ps, k);
    DistinctOfSorted(names);
    var d := Distinct(names);
    var g := SortedGroup(ps, k);
    assert forall i :: 0 <= i < |g| ==> g[i].name == d[i];
  }

  /** A group has a parameter for every name of its kind and for no other name. */
  lemma SortedGroupComplete(ps: seq<ParamNode>, k: ParamKind)
    ensures var g := SortedGroup(ps, k);
      forall n :: n in NamesOf(ps, k) <==> exists i :: 0 <= i < |g| && g[i].name == n
  {
    SortedNamesKnown(ps, k);
    var d := Distinct(AscendingOrder(NamesOf(ps, k)));
    var g := SortedGroup(ps, k);
    assert forall i :: 0 <= i < |g| ==> g[i].name == d[i];
    forall n | n in NamesOf(ps, k)
      ensures exists i :: 0 <= i < |g| && g[i].name == n
    {
      var i :| 0 <= i < |d| && d[i] == n;
      assert g[i].name == n;
    }
  }

  /** The parameters among the nodes, commas dropped. */
  function ParamsOf(s: seq<SignatureNode>): (r: seq<ParamNode>)
    ensures |r| <= |s|
  {
    if s == [] then []
    else ParamsOf(s[..|s| - 1]) + (if s[|s| - 1].Param? then [s[|s| - 1].param] else [])
  }

  function CommaCount(s: seq<SignatureNode>): nat {
    if s == [] then 0
    else CommaCount(s[..|s| - 1]) + (if s[|s| - 1].Comma? then 1 else 0)
  }

  lemma SnocNode(s: seq<SignatureNode>, x: SignatureNode)
    ensures ParamsOf(s + [x]) == ParamsOf(s) + (if x.Param? then [x.param] else [])
    ensures CommaCount(s + [x]) == CommaCount(s) + (if x.Comma? then 1 else 0)
  {
    assert (s + [x])[..|s|] == s;
  }

  lemma {:induction false} ParamInNodes(s: seq<SignatureNode>, p: ParamNode)
    ensures Param(p) in s <==> p in ParamsOf(s)
  {
    if s != [] {
      var init := s[..|s| - 1];
      ParamInNodes(init, p);
      assert s == init + [s[|s| - 1]];
    }
  }

  /** Parameters and commas alternate, starting with a parameter. */
  predicate Alternating(s: seq<SignatureNode>) {
    forall i :: 0 <= i < |s| ==> (s[i].Comma? <==> i % 2 == 1)
  }

  /** Whether a group's parameter is already in the output depends only on whether its name
      was already emitted in this group. */
  lemma AlreadyEmitted(out: seq<SignatureNode>, acc: seq<SignatureNode>, emitted: seq<string>,
                       m: map<string, ParamNode>, k: ParamKind, n: string)
    requires forall x :: x in emitted ==> x in m
    requires n in m
    requires forall x :: x in m ==> OfKind(m[x], k) && m[x].name == x
    requires forall x :: x in ParamsOf(acc) ==> !OfKind(x, k)
    requires ParamsOf(out) == ParamsOf(acc) + Nodes(emitted, m)
    ensures Param(m[n]) in out <==> n in emitted
  {
    ParamInNodes(out, m[n]);
    if n in emitted {
      var j :| 0 <= j < |emitted| && emitted[j] == n;
      assert Nodes(emitted, m)[j] == m[n];
    }
    if m[n] in Nodes(emitted, m) {
      var j :| 0 <= j < |emitted| && Nodes(emitted, m)[j] == m[n];
      assert emitted[j] == n;
    }
  }

  /** One step of a group: the parameter unless it is already present, then a comma. */
  function EmitStep(out: seq<SignatureNode>, p: ParamNode): seq<SignatureNode> {
    (if Param(p) in out then out else out + [Param(p)]) + [Comma]
  }

  /** `acc` followed by one group: an `EmitStep` for each name in turn. */
  function EmitGroup(acc: seq<SignatureNode>, names: seq<string>, m: map<string, ParamNode>): seq<SignatureNode>
    requires forall n :: n in names ==> n in m
  {
    if names == [] then acc
    else EmitStep(EmitGroup(acc, names[..|names| - 1], m), m[names[|names| - 1]])
  }

  /** Removes the last node when it is a comma token. */
  function DropTrailingComma(nodes: seq<SignatureNode>): seq<SignatureNode> {
    if nodes != [] && nodes[|nodes| - 1].Comma? then nodes[..|nodes| - 1] else nodes
  }

  /** Both groups, each name followed by a comma: `sortParameters` before its last step. */
  function WithCommas(ps: seq<ParamNode>): seq<SignatureNode> {
    SortedNamesKnown(ps, RequiredKind);
    SortedNamesKnown(ps, DefaultableKind);
    var required := EmitGroup([], AscendingOrder(NamesOf(ps, RequiredKind)), LastOfKind(ps, RequiredKind));
    EmitGroup(required, AscendingOrder(NamesOf(ps, DefaultableKind)), LastOfKind(ps, DefaultableKind))
  }

  /** The node list `sortParameters` returns for the init function's parameters. */
  function SortedParameterNodes(ps: seq<ParamNode>): seq<SignatureNode> {
    DropTrailingComma(WithCommas(ps))
  }

  /** What holds once the names of a group have been emitted onto `acc`. */
  predicate GroupEmitted(acc: seq<SignatureNode>, out: seq<SignatureNode>, names: seq<string>,
                         m: map<string, ParamNode>)
    requires forall n :: n in names ==> n in m
  {
    ParamsOf(out) == ParamsOf(acc) + Nodes(Distinct(names), m)
    && CommaCount(out) == CommaCount(acc) + |names|
    && (acc != [] ==> out != [] && out[0] == acc[0])
    && (names == [] ==> out == acc)
    && (names != [] ==> out != [] && out[|out| - 1] == Comma)
    && (acc == [] && names != [] ==> out[0].Param?)
  }

  lemma DistinctSnoc(s: seq<string>, x: string)
    ensures Distinct(s + [x]) == if x in s then Distinct(s) else Distinct(s) + [x]
  {
    assert (s + [x])[..|s|] == s;
  }

  /** The parameters after one step: the group's parameter list grows by the name's parameter
      exactly when the name is new. */
  lemma GroupStepParams(acc: seq<SignatureNode>, out: seq<SignatureNode>, prefix: seq<string>, n: string,
                        m: map<string, ParamNode>, k: ParamKind)
    requires forall x :: x in prefix ==> x in m
    requires n in m
    requires forall x :: x in m ==> OfKind(m[x], k) && m[x].name == x
    requires forall x :: x in ParamsOf(acc) ==> !OfKind(x, k)
    requires ParamsOf(out) == ParamsOf(acc) + Nodes(Distinct(prefix), m)
    ensures ParamsOf(EmitStep(out, m[n])) == ParamsOf(acc) + Nodes(Distinct(prefix + [n]), m)
  {
    DistinctSnoc(prefix, n);
    AlreadyEmitted(out, acc, Distinct(prefix), m, k, n);
    if Param(m[n]) in out {
      RepeatStepParams(out, m[n]);
    } else {
      NewStepParams(out, ParamsOf(acc), Distinct(prefix), n, m);
    }
  }

  lemma RepeatStepParams(out: seq<SignatureNode>, p: ParamNode)
    requires Param(p) in out
    ensures ParamsOf(EmitStep(out, p)) == ParamsOf(out)
  {
    SnocNode(out, Comma);
  }

  lemma NewStepParams(out: seq<SignatureNode>, before: seq<ParamNode>, d: seq<string>, n: string,
                      m: map<string, ParamNode>)
    requires forall x :: x in d ==> x in m
    requires n in m && Param(m[n]) !in out
    requires ParamsOf(out) == before + Nodes(d, m)
    ensures ParamsOf(EmitStep(out, m[n])) == before + Nodes(d + [n], m)
  {
    SnocNode(out, Param(m[n]));
    NodesSnoc(d, n, m);
    SnocNode(out + [Param(m[n])], Comma);
  }

  /** One step adds exactly one comma, ends in a comma, and keeps the first node. */
  lemma GroupStepShape(out: seq<SignatureNode>, p: ParamNode)
    ensures CommaCount(EmitStep(out, p)) == CommaCount(out) + 1
    ensures EmitStep(out, p)[|EmitStep(out, p)| - 1] == Comma
    ensures out != [] ==> EmitStep(out, p)[0] == out[0]
    ensures out == [] ==> EmitStep(out, p)[0] == Param(p)
  {
    var middle := if Param(p) in out then out else out + [Param(p)];
    if Param(p) !in out {
      SnocNode(out, Param(p));
    }
    SnocNode(middle, Comma);
  }

  lemma GroupStep(acc: seq<SignatureNode>, out: seq<SignatureNode>, prefix: seq<string>, n: string,
                  m: map<string, ParamNode>, k: ParamKind)
    requires forall x :: x in prefix ==> x in m
    requires n in m
    requires forall x :: x in m ==> OfKind(m[x], k) && m[x].name == x
    requires forall x :: x in ParamsOf(acc) ==> !OfKind(x, k)
    requires GroupEmitted(acc, out, prefix, m)
    ensures GroupEmitted(acc, EmitStep(out, m[n]), prefix + [n], m)
  {
    GroupStepParams(acc, out, prefix, n, m, k);
    GroupStepShape(out, m[n]);
  }

  /** A group contributes each distinct name's parameter once, in order, and one comma per
      name, the last node being a comma. */
  lemma {:induction false} EmitGroupEmitted(acc: seq<SignatureNode>, names: seq<string>,
                                            m: map<string, ParamNode>, k: ParamKind)
    requires forall n :: n in names ==> n in m
    requires forall n :: n in m ==> OfKind(m[n], k) && m[n].name == n
    requires forall x :: x in ParamsOf(acc) ==> !OfKind(x, k)
    ensures GroupEmitted(acc, EmitGroup(acc, names, m), names, m)
  {
    if names != [] {
      var prefix := names[..|names| - 1];
      var n := names[|names| - 1];
      assert names == prefix + [n];
      EmitGroupEmitted(acc, prefix, m, k);
      GroupStep(acc, EmitGroup(acc, prefix, m), prefix, n, m, k);
    }
  }

  lemma AlternatingStep(out: seq<SignatureNode>, p: ParamNode)
    requires Alternating(out) && |out| % 2 == 0 && Param(p) !in out
    ensures Alternating(EmitStep(out, p)) && |EmitStep(out, p)| % 2 == 0
  {
    assert EmitStep(out, p) == out + [Param(p), Comma];
  }

  /** With no repeated name, a group is parameter, comma, parameter, comma, ... */
  lemma {:induction false} EmitGroupAlternating(acc: seq<SignatureNode>, names: seq<string>,
                                                m: map<string, ParamNode>, k: ParamKind)
    requires forall n :: n in names ==> n in m
    requires forall n :: n in m ==> OfKind(m[n], k) && m[n].name == n
    requires forall x :: x in ParamsOf(acc) ==> !OfKind(x, k)
    requires Alternating(acc) && |acc| % 2 == 0 && NoDup(names)
    ensures Alternating(EmitGroup(acc, names, m)) && |EmitGroup(acc, names, m)| % 2 == 0
  {
    if names != [] {
      var prefix := names[..|names| - 1];
      var n := names[|names| - 1];
      assert NoDup(prefix);
      assert n !in prefix;
      EmitGroupAlternating(acc, prefix, m, k);
      var out := EmitGroup(acc, prefix, m);
      EmitGroupEmitted(acc, prefix, m, k);
      AlreadyEmitted(out, acc, Distinct(prefix), m, k, n);
      AlternatingStep(out, m[n]);
    }
  }

  /** A first group drawn from required parameters holds no defaultable one. */
  lemma RequiredGroupEmitted(names: seq<string>, m: map<string, ParamNode>)
    requires forall n :: n in names ==> n in m
    requires forall n :: n in m ==> OfKind(m[n], RequiredKind) && m[n].name == n
    ensures GroupEmitted([], EmitGroup([], names, m), names, m)
    ensures forall x :: x in ParamsOf(EmitGroup([], names, m)) ==> !OfKind(x, DefaultableKind)
  {
    EmitGroupEmitted([], names, m, RequiredKind);
    NodesOfKind(Distinct(names), m, RequiredKind);
    assert ParamsOf(EmitGroup([], names, m)) == Nodes(Distinct(names), m);
  }

  /** Both groups' parameters, as they stand before the trailing comma is removed. */
  lemma WithCommasParams(ps: seq<ParamNode>)
    ensures ParamsOf(WithCommas(ps)) == SortedGroup(ps, RequiredKind) + SortedGroup(ps, DefaultableKind)
  {
    SortedNamesKnown(ps, RequiredKind);
    SortedNamesKnown(ps, DefaultableKind);
    var requiredNames := AscendingOrder(NamesOf(ps, RequiredKind));
    var defaultNames := AscendingOrder(NamesOf(ps, DefaultableKind));
    var mr := LastOfKind(ps, RequiredKind);
    var md := LastOfKind(ps, DefaultableKind);
    var required := EmitGroup([], requiredNames, mr);
    RequiredGroupEmitted(requiredNames, mr);
    assert ParamsOf(required) == SortedGroup(ps, RequiredKind) by {
      assert ParamsOf([]) == [];
    }
    EmitGroupEmitted(required, defaultNames, md, DefaultableKind);
    assert WithCommas(ps) == EmitGroup(required, defaultNames, md);
  }

  /** Both groups' commas and ends, as they stand before the trailing comma is removed. */
  lemma WithCommasShape(ps: seq<ParamNode>)
    ensures var w := WithCommas(ps);
      CommaCount(w) == |NamesOf(ps, RequiredKind)| + |NamesOf(ps, DefaultableKind)|
      && (w == [] <==> NamesOf(ps, RequiredKind) == [] && NamesOf(ps, DefaultableKind) == [])
      && (w != [] ==> w[0].Param? && w[|w| - 1].Comma?)
  {
    SortedNamesKnown(ps, RequiredKind);
    SortedNamesKnown(ps, DefaultableKind);
    var requiredNames := AscendingOrder(NamesOf(ps, RequiredKind));
    var defaultNames := AscendingOrder(NamesOf(ps, DefaultableKind));
    SameLength(NamesOf(ps, RequiredKind));
    SameLength(NamesOf(ps, DefaultableKind));
    var required := EmitGroup([], requiredNames, LastOfKind(ps, RequiredKind));
    RequiredGroupEmitted(requiredNames, LastOfKind(ps, RequiredKind));
    EmitGroupEmitted(required, defaultNames, LastOfKind(ps, DefaultableKind), DefaultableKind);
    assert WithCommas(ps) == EmitGroup(required, defaultNames, LastOfKind(ps, DefaultableKind));
  }

  /** With no repeated name within a kind, the two groups alternate parameter and comma. */
  lemma WithCommasAlternating(ps: seq<ParamNode>)
    requires NoDup(NamesOf(ps, RequiredKind)) && NoDup(NamesOf(ps, DefaultableKind))
    ensures Alternating(WithCommas(ps)) && |WithCommas(ps)| % 2 == 0
  {
    SortedNamesKnown(ps, RequiredKind);
    SortedNamesKnown(ps, DefaultableKind);
    var requiredNames := AscendingOrder(NamesOf(ps, RequiredKind));
    var defaultNames := AscendingOrder(NamesOf(ps, DefaultableKind));
    NoDupPermutation(NamesOf(ps, RequiredKind), requiredNames);
    NoDupPermutation(NamesOf(ps, DefaultableKind), defaultNames);
    var required := EmitGroup([], requiredNames, LastOfKind(ps, RequiredKind));
    EmitGroupAlternating([], requiredNames, LastOfKind(ps, RequiredKind), RequiredKind);
    RequiredGroupEmitted(requiredNames, LastOfKind(ps, RequiredKind));
    EmitGroupAlternating(required, defaultNames, LastOfKind(ps, DefaultableKind), DefaultableKind);
  }

  /** Removing a trailing comma keeps the parameters and drops one comma. */
  lemma DropTrailingCommaKeepsParams(nodes: seq<SignatureNode>)
    ensures ParamsOf(DropTrailingComma(nodes)) == ParamsOf(nodes)
    ensures nodes != [] && nodes[|nodes| - 1].Comma? ==>
      CommaCount(DropTrailingComma(nodes)) + 1 == CommaCount(nodes)
  {
    if nodes != [] && nodes[|nodes| - 1].Comma? {
      var init := nodes[..|nodes| - 1];
      assert DropTrailingComma(nodes) == init;
      assert ParamsOf(nodes) == ParamsOf(init) + [];
      assert CommaCount(nodes) == CommaCount(init) + 1;
    }
  }

  /**
   * The init parameters come as both groups, the required one first: for each kind, each
   * distinct name once, in ascending order, with the parameter last given under that name.
   * Parameters of any other kind are dropped.
   */
  lemma SortParametersGroups(ps: seq<ParamNode>)
    ensures ParamsOf(SortedParameterNodes(ps)) == SortedGroup(ps, RequiredKind) + SortedGroup(ps, DefaultableKind)
  {
    WithCommasParams(ps);
    DropTrailingCommaKeepsParams(WithCommas(ps));
  }

  /** The list is empty exactly when there is no required or defaultable parameter; otherwise
      it starts with a parameter and has one comma fewer than there are names given. */
  lemma SortParametersSeparators(ps: seq<ParamNode>)
    ensures var r := SortedParameterNodes(ps);
      (r == [] <==> NamesOf(ps, RequiredKind) == [] && NamesOf(ps, DefaultableKind) == [])
      && (r != [] ==>
            r[0].Param? && CommaCount(r) + 1 == |NamesOf(ps, RequiredKind)| + |NamesOf(ps, DefaultableKind)|)
  {
    var w := WithCommas(ps);
    WithCommasShape(ps);
    DropTrailingCommaKeepsParams(w);
    if w != [] {
      assert w[0] != w[|w| - 1];
    }
  }

  /** With no repeated name within a kind, parameters and commas alternate and the list ends
      in a parameter: no trailing comma is left. */
  lemma SortParametersAlternate(ps: seq<ParamNode>)
    requires NoDup(NamesOf(ps, RequiredKind)) && NoDup(NamesOf(ps, DefaultableKind))
    ensures var r := SortedParameterNodes(ps);
      Alternating(r) && (r != [] ==> r[|r| - 1].Param?)
  {
    var w := WithCommas(ps);
    WithCommasAlternating(ps);
    WithCommasShape(ps);
    if w != [] {
      DropLastAlternating(w);
    }
  }

  /** Dropping the final comma of an alternating list of even length leaves it alternating
      and ending with a parameter. */
  lemma DropLastAlternating(w: seq<SignatureNode>)
    requires w != [] && Alternating(w) && |w| % 2 == 0
    ensures var r := w[..|w| - 1];
      Alternating(r) && (r != [] ==> r[|r| - 1].Param?)
  {
    var r := w[..|w| - 1];
    forall i | 0 <= i < |r|
      ensures r[i].Comma? <==> i % 2 == 1
    {
      assert r[i] == w[i];
    }
    if r != [] {
      assert r[|r| - 1] == w[|w| - 2];
    }
  }

  /**
   * Appends one group: for every name, its parameter unless the set already holds it, and
   * always a fresh comma token (comma tokens are distinct objects, so none is ever a repeat).
   */
  method AppendGroup(acc: seq<SignatureNode>, names: seq<string>, m: map<string, ParamNode>)
    returns (out: seq<SignatureNode>)
    requires forall n :: n in names ==> n in m
    ensures out == EmitGroup(acc, names, m)
  {
    out := acc;
    for i := 0 to |names|
      invariant out == EmitGroup(acc, names[..i], m)
    {
      assert names[..i + 1][..i] == names[..i];
      var node := Param(m[names[i]]);
      if node !in out {
        out := out + [node];
      }
      out := out + [Comma];
    }
    assert names[..|names|] == names;
  }

  /**
   * `sortParameters`: the required parameters, then the defaultable ones, each group by
   * ascending name, each followed by a comma, and the final comma removed.
   */
  method SortParameters(parameters: seq<ParamNode>) returns (paramNodes: seq<SignatureNode>)
    ensures paramNodes == SortedParameterNodes(parameters)
  {
    var requiredParams, requiredParamNames, defaultParams, defaultParamNames := PartitionParameters(parameters);
    var sortedRequiredParamNames := AscendingOrder(requiredParamNames);
    var sortedDefaultParamNames := AscendingOrder(defaultParamNames);
    SortedNamesKnown(parameters, RequiredKind);
    SortedNamesKnown(parameters, DefaultableKind);
    paramNodes := AppendGroup([], sortedRequiredParamNames, requiredParams);
    paramNodes := AppendGroup(paramNodes, sortedDefaultParamNames, defaultParams);
    // remove the trailing comma
    if paramNodes != [] {
      if paramNodes[|paramNodes| - 1].Comma? {
        paramNodes := paramNodes[..|paramNodes| - 1];
      }
    }
  }

  /** The first loop of `sortParameters`: names in input order and the name maps, per kind. */
  method PartitionParameters(parameters: seq<ParamNode>)
    returns (requiredParams: map<string, ParamNode>, requiredParamNames: seq<string>,
             defaultParams: map<string, ParamNode>, defaultParamNames: seq<string>)
    ensures requiredParamNames == NamesOf(parameters, RequiredKind)
    ensures requiredParams == LastOfKind(parameters, RequiredKind)
    ensures defaultParamNames == NamesOf(parameters, DefaultableKind)
    ensures defaultParams == LastOfKind(parameters, DefaultableKind)
  {
    requiredParams, requiredParamNames, defaultParams, defaultParamNames := map[], [], map[], [];
    for i := 0 to |parameters|
      invariant requiredParamNames == NamesOf(parameters[..i], RequiredKind)
      invariant requiredParams == LastOfKind(parameters[..i], RequiredKind)
      invariant defaultParamNames == NamesOf(parameters[..i], DefaultableKind)
      invariant defaultParams == LastOfKind(parameters[..i], DefaultableKind)
    {
      assert parameters[..i + 1][..i] == parameters[..i];
      var parameter := parameters[i];
      if parameter.Required? {
        requiredParamNames := requiredParamNames + [parameter.name];
        requiredParams := requiredParams[parameter.name := parameter];
      } else if parameter.Defaultable? {
        defaultParams := defaultParams[parameter.name := parameter];
        defaultParamNames := defaultParamNames + [parameter.name];
      }
    }
    assert parameters[..|parameters|] == parameters;
  }

  /** Every node drawn from a map of one kind is of that kind. */
  lemma NodesOfKind(names: seq<string>, m: map<string, ParamNode>, k: ParamKind)
    requires forall n :: n in names ==> n in m
    requires forall n :: n in m ==> OfKind(m[n], k) && m[n].name == n
    ensures forall x :: x in Nodes(names, m) ==> OfKind(x, k)
  {
  }

  /** Sorting keeps the length. */
  lemma SameLength(s: seq<string>)
    ensures |AscendingOrder(s)| == |s|
  {
    assert |multiset(AscendingOrder(s))| == |multiset(s)|;
  }

  // ---------------------------------------------------------------------------
  // Init function body and server URL
  // ---------------------------------------------------------------------------

  /** What the auth-config generator reports for the document; its own logic is not part of
      this model. The API key names are given in the order its maps yield them. */
  datatype AuthConfig = AuthConfig(
    isApiKey: bool,
    isHttpOrOAuth: bool,
    headerApiKeyNames: seq<string>,
    queryApiKeyNames: seq<string>,
    configParams: seq<ParamNode>,
    diagnostics: seq<Diagnostic>)

  /** What the server URL generator reports: the `serviceUrl` parameter and its diagnostics. */
  datatype ServerUrlOutcome = ServerUrlOutcome(node: ParamNode, diagnostics: seq<Diagnostic>)

  /** The statements of the client's `init` body. */
  datatype InitStatement =
    | HttpClientConfigVariable        // `http:ClientConfiguration httpClientConfig = {...};`
    | ClientConfigDoStatement         // copying the optional connection settings
    | MixedApiKeyAndHttpOrOAuthInit   // the branch between API keys and HTTP/OAuth config
    | ClientInitialization            // `http:Client httpEp = check new (serviceUrl, httpClientConfig);`
    | ClientEpAssignment              // `self.clientEp = httpEp;`
    | ApiKeyAssignment                // `self.apiKeyConfig = apiKeyConfig.cloneReadOnly();`
    | ReturnStatement                 // `return;`

  /** The `init` body for the given kinds of authentication. */
  function InitStatements(isApiKey: bool, isHttpOrOAuth: bool): seq<InitStatement> {
    [HttpClientConfigVariable, ClientConfigDoStatement]
    + (if isApiKey && isHttpOrOAuth then [MixedApiKeyAndHttpOrOAuthInit] else [])
    + [ClientInitialization, ClientEpAssignment]
    + (if isApiKey && !isHttpOrOAuth then [ApiKeyAssignment] else [])
    + [ReturnStatement]
  }

  /**
   * The `init` body opens with the configuration variable and its do-statement and ends with
   * the return; the client is created and immediately stored in `self.clientEp`; the mixed
   * authentication branch appears only with both API keys and HTTP/OAuth, the API key
   * assignment only with API keys alone, so never both.
   */
  lemma InitStatementOrder(isApiKey: bool, isHttpOrOAuth: bool)
    ensures var b := InitStatements(isApiKey, isHttpOrOAuth);
      5 <= |b| <= 6 && b[0] == HttpClientConfigVariable && b[1] == ClientConfigDoStatement
      && b[|b| - 1] == ReturnStatement
      && (MixedApiKeyAndHttpOrOAuthInit in b <==> isApiKey && isHttpOrOAuth)
      && (ApiKeyAssignment in b <==> isApiKey && !isHttpOrOAuth)
      && !(MixedApiKeyAndHttpOrOAuthInit in b && ApiKeyAssignment in b)
      && exists i :: 2 <= i < |b| - 1 && b[i] == ClientInitialization && b[i + 1] == ClientEpAssignment
  {
    var b := InitStatements(isApiKey, isHttpOrOAuth);
    var i := if isApiKey && isHttpOrOAuth then 3 else 2;
    assert b[i] == ClientInitialization && b[i + 1] == ClientEpAssignment;
  }

  /** Each statement appears at most once. */
  lemma InitStatementsDistinct(isApiKey: bool, isHttpOrOAuth: bool)
    ensures NoDup(InitStatements(isApiKey, isHttpOrOAuth))
  {
  }

  /** The server URL recorded from a `serviceUrl` default: double quotes become spaces and the
      ends are trimmed. */
  function ServerUrlText(expression: string): (r: string)
    ensures '"' !in r
    ensures r == [] || (r[0] > ' ' && r[|r| - 1] > ' ')
  {
    var unquoted := ReplaceChar(expression, '"', ' ');
    TrimProperties(unquoted);
    TrimIntroducesNothing(unquoted, '"');
    Trim(unquoted)
  }

  lemma TrimStartKeeps(s: string)
    requires s == [] || s[0] > ' '
    ensures TrimStart(s) == s
  {
  }

  lemma TrimEndKeeps(s: string)
    requires s == [] || s[|s| - 1] > ' '
    ensures TrimEnd(s) == s
  {
  }

  /** A string literal default gives back the URL it quotes, as long as the URL has no quote
      and no blank at either end. */
  lemma ServerUrlOfLiteral(url: string)
    requires '"' !in url
    requires url == [] || (url[0] > ' ' && url[|url| - 1] > ' ')
    ensures ServerUrlText("\"" + url + "\"") == url
  {
    var quoted := "\"" + url + "\"";
    var unquoted := ReplaceChar(quoted, '"', ' ');
    var padded := " " + url + " ";
    forall i | 0 <= i < |padded|
      ensures unquoted[i] == padded[i]
    {
      if 0 < i < |padded| - 1 {
        assert quoted[i] == url[i - 1] && padded[i] == url[i - 1];
      }
    }
    assert unquoted == padded;
    var tail := url + " ";
    assert padded[1..] == tail;
    assert TrimStart(padded) == TrimStart(tail);
    if url == [] {
      assert TrimStart(tail) == [];
    } else {
      TrimStartKeeps(tail);
      assert tail[..|url|] == url;
      assert TrimEnd(tail) == TrimEnd(url);
      TrimEndKeeps(url);
    }
  }

  /** The server URL is trimmed already: recording it twice changes nothing. */
  lemma ServerUrlTextIdempotent(expression: string)
    ensures ServerUrlText(ServerUrlText(expression)) == ServerUrlText(expression)
  {
    var r := ServerUrlText(expression);
    assert ReplaceChar(r, '"', ' ') == r;
    TrimStartKeeps(r);
    TrimEndKeeps(r);
  }

  // ---------------------------------------------------------------------------
  // The client generator
  // ---------------------------------------------------------------------------

  /** What adding one function reports. */
  datatype FunctionGeneratorResults = FunctionGeneratorResults(
    isSuccess: bool,
    hasDefaultStatusCodeBinding: bool,
    nonDefaultStatusCodes: seq<string>)

  /** The one-argument constructor: no default binding and no status codes. */
  function FromStatus(status: bool): (r: FunctionGeneratorResults)
    ensures r.isSuccess == status && !r.hasDefaultStatusCodeBinding && r.nonDefaultStatusCodes == []
  {
    FunctionGeneratorResults(status, false, [])
  }

  /** The caller's list of generated function definitions, appended to in place. */
  class FunctionList {
    var nodes: seq<FunctionDef>

    constructor()
      ensures nodes == []
    {
      nodes := [];
    }
  }

  class BallerinaClientGenerator {
    const filter: Filter
    /** The auth-config generator's report for the document. */
    const auth: AuthConfig
    var remoteFunctionNameList: seq<Option<string>>
    var diagnostics: seq<Diagnostic>
    /** `null` until the init signature is generated. */
    var serverURL: Option<string>
    var apiKeyNameList: seq<string>

    constructor(filter: Filter, auth: AuthConfig)
      ensures this.filter == filter && this.auth == auth
      ensures remoteFunctionNameList == [] && diagnostics == [] && serverURL.None? && apiKeyNameList == []
    {
      this.filter := filter;
      this.auth := auth;
      remoteFunctionNameList := [];
      diagnostics := [];
      serverURL := None;
      apiKeyNameList := [];
    }

    /** The `init` body; with API keys, the header then query key names are recorded. */
    method GetInitFunctionBodyNode() returns (statements: seq<InitStatement>)
      modifies this
      ensures statements == InitStatements(auth.isApiKey, auth.isHttpOrOAuth)
      ensures apiKeyNameList ==
        if auth.isApiKey then auth.headerApiKeyNames + auth.queryApiKeyNames else old(apiKeyNameList)
      ensures remoteFunctionNameList == old(remoteFunctionNameList) && diagnostics == old(diagnostics)
      ensures serverURL == old(serverURL)
    {
      statements := [HttpClientConfigVariable, ClientConfigDoStatement];
      if auth.isApiKey && auth.isHttpOrOAuth {
        statements := statements + [MixedApiKeyAndHttpOrOAuthInit];
      }
      statements := statements + [ClientInitialization];
      statements := statements + [ClientEpAssignment];
      if auth.isApiKey && !auth.isHttpOrOAuth {
        statements := statements + [ApiKeyAssignment];
      }
      if auth.isApiKey {
        var apiKeyNames := auth.headerApiKeyNames + auth.queryApiKeyNames;
        apiKeyNameList := apiKeyNames;
      }
      statements := statements + [ReturnStatement];
    }

    /**
     * The `init` parameters: the server URL parameter and the auth config parameters in
     * `sortParameters` order. Records the server URL and merges both generators'
     * diagnostics, the server URL generator's first.
     */
    method GetInitFunctionSignatureNode(server: ServerUrlOutcome) returns (params: seq<SignatureNode>)
      modifies this
      ensures params == SortedParameterNodes([server.node] + auth.configParams)
      ensures server.node.Defaultable? && server.node.name == "serviceUrl" ==>
        serverURL == Some(ServerUrlText(server.node.defaultExpr))
      ensures server.node.Defaultable? && server.node.name != "serviceUrl" ==> serverURL == old(serverURL)
      ensures !server.node.Defaultable? ==> serverURL == Some("/")
      ensures diagnostics == old(diagnostics) + server.diagnostics + auth.diagnostics
      ensures remoteFunctionNameList == old(remoteFunctionNameList) && apiKeyNameList == old(apiKeyNameList)
    {
      var serverURLNode := server.node;
      if serverURLNode.Defaultable? {
        if serverURLNode.name == "serviceUrl" {
          serverURL := Some(ServerUrlText(serverURLNode.defaultExpr));
        }
      } else {
        serverURL := Some("/");
      }
      diagnostics := diagnostics + server.diagnostics;
      var parameterNodes := [serverURLNode];
      diagnostics := diagnostics + auth.diagnostics;
      parameterNodes := parameterNodes + auth.configParams;
      params := SortParameters(parameterNodes);
      assert parameterNodes == [server.node] + auth.configParams;
    }

    /**
     * Adds the remote function of one operation: the operation id is always recorded and the
     * generator's diagnostics always merged; the function joins the list only when generated.
     */
    method AddRemoteFunction(operation: Operation, path: string, sig: SignatureOutcome, body: BodyGenerator,
                             functionNodes: FunctionList)
      returns (results: FunctionGeneratorResults)
      modifies this, functionNodes
      ensures var g := RemotePipeline(operation.operationId, sig, body);
        && remoteFunctionNameList == old(remoteFunctionNameList) + [operation.operationId]
        && diagnostics == old(diagnostics) + g.diagnostics
        && functionNodes.nodes == old(functionNodes.nodes) + (if g.definition.Some? then [g.definition.value] else [])
        && results == (if g.definition.Some?
                       then FunctionGeneratorResults(true, sig.hasDefaultStatusCodeBinding, sig.nonDefaultStatusCodes)
                       else FromStatus(false))
      ensures serverURL == old(serverURL) && apiKeyNameList == old(apiKeyNameList)
    {
      remoteFunctionNameList := remoteFunctionNameList + [operation.operationId];
      var remoteFunctionGenerator := new RemoteFunctionGenerator(operation.operationId, sig, body);
      var remoteFunction := remoteFunctionGenerator.GenerateFunction();
      diagnostics := diagnostics + remoteFunctionGenerator.diagnostics;
      if remoteFunction.Some? {
        functionNodes.nodes := functionNodes.nodes + [remoteFunction.value];
        return FunctionGeneratorResults(true, remoteFunctionGenerator.HasDefaultStatusCodeBinding(),
          remoteFunctionGenerator.GetNonDefaultStatusCodes());
      }
      return FromStatus(false);
    }

    /**
     * Adds the resource function of one operation, under the same rules as a remote one.
     */
    method AddResourceFunction(httpMethod: HttpMethod, operation: Operation, path: string, paths: PathOutcome,
                               sig: SignatureOutcome, body: BodyGenerator, functionNodes: FunctionList)
      returns (results: FunctionGeneratorResults)
      modifies this, functionNodes
      ensures var g := ResourcePipeline(httpMethod, path, paths, sig, body);
        && remoteFunctionNameList == old(remoteFunctionNameList) + [operation.operationId]
        && diagnostics == old(diagnostics) + g.diagnostics
        && functionNodes.nodes == old(functionNodes.nodes) + (if g.definition.Some? then [g.definition.value] else [])
        && results == (if g.definition.Some?
                       then FunctionGeneratorResults(true, sig.hasDefaultStatusCodeBinding, sig.nonDefaultStatusCodes)
                       else FromStatus(false))
      ensures serverURL == old(serverURL) && apiKeyNameList == old(apiKeyNameList)
    {
      ghost var g := ResourcePipeline(httpMethod, path, paths, sig, body);
      remoteFunctionNameList := remoteFunctionNameList + [operation.operationId];
      var resourceFunctionGenerator := new ResourceFunctionGenerator(httpMethod, path, paths, sig, body);
      var resourceFunction := resourceFunctionGenerator.GenerateFunction();
      assert resourceFunction == g.definition && resourceFunctionGenerator.diagnostics == g.diagnostics;
      diagnostics := diagnostics + resourceFunctionGenerator.diagnostics;
      if resourceFunction.Some? {
        functionNodes.nodes := functionNodes.nodes + [resourceFunction.value];
        return FunctionGeneratorResults(true, resourceFunctionGenerator.HasDefaultStatusCodeBinding(),
          resourceFunctionGenerator.GetNonDefaultStatusCodes());
      }
      return FromStatus(false);
    }
  }
}
