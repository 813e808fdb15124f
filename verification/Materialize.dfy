/**
 The authorized-query rewrite: a query over a virtual table becomes a query over stored tables by
 putting the authorized base query in the virtual table's place.
 */
module Materialize {
  import opened Wrappers
  import opened Sql

  datatype Definition = Definition(
    virtualSchema: string, virtualName: string, base: Query, parameters: set<string>,
    allowFiltering: bool, allowAggregation: bool)

  datatype MaterializationError =
    | OuterParameters | FilteringDisabled | AggregationDisabled | NotExactlyOnce | ParameterMismatch

  datatype Prepared = Prepared(query: Query, params: map<string, Value>)

  /******* What the guards look at *******/

  predicate NoDot(s: string) {
    '.' !in s
  }

  predicate ValidDefinition(d: Definition) {
    NoDot(d.virtualSchema) && NoDot(d.virtualName)
  }

  /** A qualified name is compared as one dotted string, an unqualified one by its last part. */
  predicate MatchesVirtual(t: TableName, d: Definition) {
    if t.catalog.Some? then false
    else if t.schema.Some? then t.schema.value + "." + t.name == d.virtualSchema + "." + d.virtualName
    else t.name == d.virtualName
  }

  datatype Facts = Facts(placeholders: set<string>, filters: bool, aggregates: bool, virtuals: nat)

  function Both(a: Facts, b: Facts): (r: Facts)
    ensures r.placeholders == {} ==> a.placeholders == {} && b.placeholders == {}
  {
    Facts(a.placeholders + b.placeholders, a.filters || b.filters, a.aggregates || b.aggregates,
          a.virtuals + b.virtuals)
  }

  const NOTHING := Facts({}, false, false, 0)

  function ExprFacts(e: Expr, d: Definition): Facts {
    match e
    case Lit(_) => NOTHING
    case Placeholder(p) => NOTHING.(placeholders := {p})
    case Col(_) => NOTHING
    case Apply(_, l, r) => Both(ExprFacts(l, d), ExprFacts(r, d))
    case Aggregate(_, arg) => ExprFacts(arg, d).(aggregates := true)
    case Exists(sub) => QueryFacts(sub, d)
    case Scalar(sub) => QueryFacts(sub, d)
  }

  function OptionFacts(e: Option<Expr>, d: Definition): Facts {
    if e.None? then NOTHING else ExprFacts(e.value, d)
  }

  function ItemsFacts(items: Items, d: Definition): Facts {
    match items
    case NoItems => NOTHING
    case Item(_, e, rest) => Both(ExprFacts(e, d), ItemsFacts(rest, d))
  }

  function FromFacts(f: From, d: Definition): Facts {
    match f
    case Table(t, _, _) => if MatchesVirtual(t, d) then NOTHING.(virtuals := 1) else NOTHING
    case Derived(sub, _) => QueryFacts(sub, d)
    case Join(l, r, on) => Both(Both(FromFacts(l, d), FromFacts(r, d)), ExprFacts(on, d))
  }

  function CtesFacts(ctes: Ctes, d: Definition): Facts {
    match ctes
    case NoCtes => NOTHING
    case Cte(_, body, rest) => Both(QueryFacts(body, d), CtesFacts(rest, d))
  }

  function GroupingFacts(g: Grouping, d: Definition): Facts {
    match g
    case Plain => NOTHING
    case Grouped(keys) => ItemsFacts(keys, d).(aggregates := true)
  }

  function QueryFacts(q: Query, d: Definition): Facts {
    match q
    case Select(ctes, items, source, filter, grouping, having, _) =>
      var inside :=
        Both(Both(Both(CtesFacts(ctes, d), ItemsFacts(items, d)),
                  Both(FromFacts(source, d), OptionFacts(filter, d))),
             Both(GroupingFacts(grouping, d), OptionFacts(having, d)));
      if filter.Some? || having.Some? then inside.(filters := true) else inside
    case SetOperation(ctes, _, l, r) =>
      Both(CtesFacts(ctes, d), Both(QueryFacts(l, d), QueryFacts(r, d)))
  }

  /******* The rewrite *******/

  function RwExpr(e: Expr, d: Definition): Expr {
    match e
    case Lit(_) => e
    case Placeholder(_) => e
    case Col(_) => e
    case Apply(op, l, r) => Apply(op, RwExpr(l, d), RwExpr(r, d))
    case Aggregate(f, arg) => Aggregate(f, RwExpr(arg, d))
    case Exists(sub) => Exists(RwQuery(sub, d))
    case Scalar(sub) => Scalar(RwQuery(sub, d))
  }

  function RwOption(e: Option<Expr>, d: Definition): Option<Expr> {
    if e.None? then None else Some(RwExpr(e.value, d))
  }

  function RwItems(items: Items, d: Definition): Items {
    match items
    case NoItems => NoItems
    case Item(n, e, rest) => Item(n, RwExpr(e, d), RwItems(rest, d))
  }

  /** The table gives way to the base query under its alias, or under its own name. */
  function RwFrom(f: From, d: Definition): From {
    match f
    case Table(t, alias, _) =>
      if MatchesVirtual(t, d) then Derived(d.base, if alias.Some? then alias.value else t.name) else f
    case Derived(sub, n) => Derived(RwQuery(sub, d), n)
    case Join(l, r, on) => Join(RwFrom(l, d), RwFrom(r, d), RwExpr(on, d))
  }

  function RwCtes(ctes: Ctes, d: Definition): Ctes {
    match ctes
    case NoCtes => NoCtes
    case Cte(n, body, rest) => Cte(n, RwQuery(body, d), RwCtes(rest, d))
  }

  function RwGrouping(g: Grouping, d: Definition): Grouping {
    match g
    case Plain => Plain
    case Grouped(keys) => Grouped(RwItems(keys, d))
  }

  function RwQuery(q: Query, d: Definition): Query {
    match q
    case Select(ctes, items, source, filter, grouping, having, limit) =>
      Select(RwCtes(ctes, d), RwItems(items, d), RwFrom(source, d), RwOption(filter, d),
             RwGrouping(grouping, d), RwOption(having, d), limit)
    case SetOperation(ctes, op, l, r) =>
      SetOperation(RwCtes(ctes, d), op, RwQuery(l, d), RwQuery(r, d))
  }

  function Materialize(d: Definition, outer: Query, supplied: map<string, Value>)
    : Result<Prepared, MaterializationError>
  {
    var facts := QueryFacts(outer, d);
    if facts.placeholders != {} then Err(OuterParameters)
    else if !d.allowFiltering && facts.filters then Err(FilteringDisabled)
    else if !d.allowAggregation && facts.aggregates then Err(AggregationDisabled)
    else if facts.virtuals != 1 then Err(NotExactlyOnce)
    else if supplied.Keys != d.parameters then Err(ParameterMismatch)
    else Ok(Prepared(RwQuery(outer, d), supplied))
  }

  /******* What occurs in a query *******/

  /** A place in a query: an expression, a table or join, or a query of its own. */
  datatype Node = ExprNode(e: Expr) | FromNode(f: From) | QueryNode(q: Query)

  function ExprNodes(e: Expr): seq<Node> {
    [ExprNode(e)] +
    match e
    case Lit(_) => []
    case Placeholder(_) => []
    case Col(_) => []
    case Apply(_, l, r) => ExprNodes(l) + ExprNodes(r)
    case Aggregate(_, arg) => ExprNodes(arg)
    case Exists(sub) => QueryNodes(sub)
    case Scalar(sub) => QueryNodes(sub)
  }

  function OptionNodes(e: Option<Expr>): seq<Node> {
    if e.None? then [] else ExprNodes(e.value)
  }

  function ItemsNodes(items: Items): seq<Node> {
    match items
    case NoItems => []
    case Item(_, e, rest) => ExprNodes(e) + ItemsNodes(rest)
  }

  function FromNodes(f: From): seq<Node> {
    [FromNode(f)] +
    match f
    case Table(_, _, _) => []
    case Derived(sub, _) => QueryNodes(sub)
    case Join(l, r, on) => FromNodes(l) + FromNodes(r) + ExprNodes(on)
  }

  function CtesNodes(ctes: Ctes): seq<Node> {
    match ctes
    case NoCtes => []
    case Cte(_, body, rest) => QueryNodes(body) + CtesNodes(rest)
  }

  function GroupingNodes(g: Grouping): seq<Node> {
    match g
    case Plain => []
    case Grouped(keys) => ItemsNodes(keys)
  }

  /** Everything that occurs in the query, itself first. */
  function QueryNodes(q: Query): seq<Node> {
    [QueryNode(q)] +
    match q
    case Select(ctes, items, source, filter, grouping, having, _) =>
      ((CtesNodes(ctes) + ItemsNodes(items)) + (FromNodes(source) + OptionNodes(filter)))
      + (GroupingNodes(grouping) + OptionNodes(having))
    case SetOperation(ctes, _, l, r) => CtesNodes(ctes) + (QueryNodes(l) + QueryNodes(r))
  }

  predicate IsPlaceholder(n: Node) {
    n.ExprNode? && n.e.Placeholder?
  }

  /** WHERE or HAVING. */
  predicate IsFiltered(n: Node) {
    n.QueryNode? && n.q.Select? && (n.q.filter.Some? || n.q.having.Some?)
  }

  /** An aggregate function or GROUP BY. */
  predicate IsAggregated(n: Node) {
    (n.ExprNode? && n.e.Aggregate?) || (n.QueryNode? && n.q.Select? && n.q.grouping.Grouped?)
  }

  predicate IsVirtual(n: Node, d: Definition) {
    n.FromNode? && n.f.Table? && MatchesVirtual(n.f.t, d)
  }

  function Virtuals(nodes: seq<Node>, d: Definition): nat {
    if nodes == [] then 0 else (if IsVirtual(nodes[0], d) then 1 else 0) + Virtuals(nodes[1..], d)
  }

  /** The facts are those of these nodes. */
  ghost predicate Reads(f: Facts, nodes: seq<Node>, d: Definition) {
    && (forall p :: p in f.placeholders <==> ExprNode(Placeholder(p)) in nodes)
    && (f.filters <==> exists n <- nodes :: IsFiltered(n))
    && (f.aggregates <==> exists n <- nodes :: IsAggregated(n))
    && f.virtuals == Virtuals(nodes, d)
  }

  lemma {:induction false} VirtualsAppend(a: seq<Node>, b: seq<Node>, d: Definition)
    ensures Virtuals(a + b, d) == Virtuals(a, d) + Virtuals(b, d)
  {
    if a == [] {
      assert a + b == b;
    } else {
      VirtualsAppend(a[1..], b, d);
      assert (a + b)[1..] == a[1..] + b;
    }
  }

  lemma ReadsBoth(f: Facts, a: seq<Node>, g: Facts, b: seq<Node>, d: Definition)
    requires Reads(f, a, d) && Reads(g, b, d)
    ensures Reads(Both(f, g), a + b, d)
  {
    VirtualsAppend(a, b, d);
    assert forall n :: n in a + b <==> n in a || n in b;
  }

  /** A node before nodes already read. */
  lemma ReadsHead(f: Facts, head: Node, nodes: seq<Node>, g: Facts, d: Definition)
    requires Reads(f, nodes, d) && !IsPlaceholder(head) && !IsVirtual(head, d)
    requires g == Facts(f.placeholders, f.filters || IsFiltered(head), f.aggregates || IsAggregated(head), f.virtuals)
    ensures Reads(g, [head] + nodes, d)
  {
    assert ([head] + nodes)[1..] == nodes;
    assert forall n :: n in [head] + nodes <==> n == head || n in nodes;
  }

  lemma ReadsNothing(d: Definition)
    ensures Reads(NOTHING, [], d)
  {
  }

  lemma {:induction false} ExprReads(e: Expr, d: Definition)
    ensures Reads(ExprFacts(e, d), ExprNodes(e), d)
    decreases e, 0
  {
    ReadsNothing(d);
    match e
    case Lit(_) => ReadsHead(NOTHING, ExprNode(e), [], ExprFacts(e, d), d);
    case Placeholder(_) =>
      assert ExprNode(e) in ExprNodes(e);
    case Col(_) => ReadsHead(NOTHING, ExprNode(e), [], ExprFacts(e, d), d);
    case Apply(_, l, r) =>
      ExprReads(l, d);
      ExprReads(r, d);
      ReadsBoth(ExprFacts(l, d), ExprNodes(l), ExprFacts(r, d), ExprNodes(r), d);
      ReadsHead(Both(ExprFacts(l, d), ExprFacts(r, d)), ExprNode(e), ExprNodes(l) + ExprNodes(r), ExprFacts(e, d), d);
    case Aggregate(_, arg) =>
      ExprReads(arg, d);
      ReadsHead(ExprFacts(arg, d), ExprNode(e), ExprNodes(arg), ExprFacts(e, d), d);
    case Exists(sub) =>
      QueryReads(sub, d);
      ReadsHead(QueryFacts(sub, d), ExprNode(e), QueryNodes(sub), ExprFacts(e, d), d);
    case Scalar(sub) =>
      QueryReads(sub, d);
      ReadsHead(QueryFacts(sub, d), ExprNode(e), QueryNodes(sub), ExprFacts(e, d), d);
  }

  lemma {:induction false} OptionReads(e: Option<Expr>, d: Definition)
    ensures Reads(OptionFacts(e, d), OptionNodes(e), d)
    decreases e, 0
  {
    ReadsNothing(d);
    if e.Some? {
      ExprReads(e.value, d);
    }
  }

  lemma {:induction false} ItemsRead(items: Items, d: Definition)
    ensures Reads(ItemsFacts(items, d), ItemsNodes(items), d)
    decreases items, 0
  {
    ReadsNothing(d);
    if items.Item? {
      ExprReads(items.e, d);
      ItemsRead(items.rest, d);
      ReadsBoth(ExprFacts(items.e, d), ExprNodes(items.e), ItemsFacts(items.rest, d), ItemsNodes(items.rest), d);
    }
  }

  lemma {:induction false} FromReads(f: From, d: Definition)
    ensures Reads(FromFacts(f, d), FromNodes(f), d)
    decreases f, 0
  {
    ReadsNothing(d);
    match f
    case Table(_, _, _) =>
      assert FromNodes(f) == [FromNode(f)] && [FromNode(f)][1..] == [];
    case Derived(sub, _) =>
      QueryReads(sub, d);
      ReadsHead(QueryFacts(sub, d), FromNode(f), QueryNodes(sub), FromFacts(f, d), d);
    case Join(l, r, on) =>
      FromReads(l, d);
      FromReads(r, d);
      ExprReads(on, d);
      var both, nodes := Both(FromFacts(l, d), FromFacts(r, d)), FromNodes(l) + FromNodes(r);
      ReadsBoth(FromFacts(l, d), FromNodes(l), FromFacts(r, d), FromNodes(r), d);
      ReadsBoth(both, nodes, ExprFacts(on, d), ExprNodes(on), d);
      ReadsHead(Both(both, ExprFacts(on, d)), FromNode(f), nodes + ExprNodes(on), FromFacts(f, d), d);
  }

  lemma {:induction false} CtesRead(ctes: Ctes, d: Definition)
    ensures Reads(CtesFacts(ctes, d), CtesNodes(ctes), d)
    decreases ctes, 0
  {
    ReadsNothing(d);
    if ctes.Cte? {
      QueryReads(ctes.body, d);
      CtesRead(ctes.rest, d);
      ReadsBoth(QueryFacts(ctes.body, d), QueryNodes(ctes.body), CtesFacts(ctes.rest, d), CtesNodes(ctes.rest), d);
    }
  }

  /** The keys; that there is a grouping at all is read off the query that has it. */
  lemma {:induction false} GroupingReads(g: Grouping, d: Definition)
    ensures Reads(if g.Plain? then NOTHING else ItemsFacts(g.keys, d), GroupingNodes(g), d)
    ensures GroupingFacts(g, d) == if g.Plain? then NOTHING else ItemsFacts(g.keys, d).(aggregates := true)
    decreases g, 0
  {
    ReadsNothing(d);
    if g.Grouped? {
      ItemsRead(g.keys, d);
    }
  }

  lemma {:induction false} QueryReads(q: Query, d: Definition)
    ensures Reads(QueryFacts(q, d), QueryNodes(q), d)
    decreases q, 0
  {
    CtesRead(q.ctes, d);
    match q
    case Select(ctes, items, source, filter, grouping, having, _) =>
      ItemsRead(items, d);
      FromReads(source, d);
      OptionReads(filter, d);
      GroupingReads(grouping, d);
      OptionReads(having, d);
      var keys := if grouping.Plain? then NOTHING else ItemsFacts(grouping.keys, d);
      SelectReads(q, CtesFacts(ctes, d), ItemsFacts(items, d), FromFacts(source, d), OptionFacts(filter, d), keys,
                  OptionFacts(having, d), d);
    case SetOperation(ctes, _, l, r) =>
      QueryReads(l, d);
      QueryReads(r, d);
      var both, nodes := Both(QueryFacts(l, d), QueryFacts(r, d)), QueryNodes(l) + QueryNodes(r);
      ReadsBoth(QueryFacts(l, d), QueryNodes(l), QueryFacts(r, d), QueryNodes(r), d);
      ReadsBoth(CtesFacts(ctes, d), CtesNodes(ctes), both, nodes, d);
      ReadsHead(Both(CtesFacts(ctes, d), both), QueryNode(q), CtesNodes(ctes) + nodes, QueryFacts(q, d), d);
  }

  lemma SelectReads(q: Query, a: Facts, b: Facts, c: Facts, e: Facts, f: Facts, g: Facts, d: Definition)
    requires q.Select? && a == CtesFacts(q.ctes, d) && b == ItemsFacts(q.items, d) && c == FromFacts(q.source, d)
    requires e == OptionFacts(q.filter, d) && g == OptionFacts(q.having, d)
    requires GroupingFacts(q.grouping, d) == if q.grouping.Plain? then f else f.(aggregates := true)
    requires Reads(a, CtesNodes(q.ctes), d) && Reads(b, ItemsNodes(q.items), d) && Reads(c, FromNodes(q.source), d)
    requires Reads(e, OptionNodes(q.filter), d) && Reads(f, GroupingNodes(q.grouping), d)
    requires Reads(g, OptionNodes(q.having), d)
    ensures Reads(QueryFacts(q, d), QueryNodes(q), d)
  {
    var an, bn, cn := CtesNodes(q.ctes), ItemsNodes(q.items), FromNodes(q.source);
    var en, fn, gn := OptionNodes(q.filter), GroupingNodes(q.grouping), OptionNodes(q.having);
    var parts, nodes := SixFacts(a, b, c, e, f, g), SixNodes(an, bn, cn, en, fn, gn);
    SixRead(a, an, b, bn, c, cn, e, en, f, fn, g, gn, d);
    ReadsHead(parts, QueryNode(q), nodes, QueryFacts(q, d), d) by {
      SelectFacts(q, a, b, c, e, f, g, d);
    }
    assert QueryNodes(q) == [QueryNode(q)] + nodes;
  }

  function SixFacts(a: Facts, b: Facts, c: Facts, e: Facts, f: Facts, g: Facts): Facts {
    Both(Both(Both(a, b), Both(c, e)), Both(f, g))
  }

  function SixNodes(a: seq<Node>, b: seq<Node>, c: seq<Node>, e: seq<Node>, f: seq<Node>, g: seq<Node>): seq<Node> {
    ((a + b) + (c + e)) + (f + g)
  }

  lemma SixRead(a: Facts, an: seq<Node>, b: Facts, bn: seq<Node>, c: Facts, cn: seq<Node>, e: Facts, en: seq<Node>,
      f: Facts, fn: seq<Node>, g: Facts, gn: seq<Node>, d: Definition)
    requires Reads(a, an, d) && Reads(b, bn, d) && Reads(c, cn, d) && Reads(e, en, d) && Reads(f, fn, d)
    requires Reads(g, gn, d)
    ensures Reads(SixFacts(a, b, c, e, f, g), SixNodes(an, bn, cn, en, fn, gn), d)
  {
    ReadsBoth(a, an, b, bn, d);
    ReadsBoth(c, cn, e, en, d);
    ReadsBoth(f, fn, g, gn, d);
    ReadsBoth(Both(a, b), an + bn, Both(c, e), cn + en, d);
    ReadsBoth(Both(Both(a, b), Both(c, e)), (an + bn) + (cn + en), Both(f, g), fn + gn, d);
  }

  lemma SelectFacts(q: Query, a: Facts, b: Facts, c: Facts, e: Facts, f: Facts, g: Facts, d: Definition)
    requires q.Select? && a == CtesFacts(q.ctes, d) && b == ItemsFacts(q.items, d) && c == FromFacts(q.source, d)
    requires e == OptionFacts(q.filter, d) && g == OptionFacts(q.having, d)
    requires GroupingFacts(q.grouping, d) == if q.grouping.Plain? then f else f.(aggregates := true)
    ensures var parts := SixFacts(a, b, c, e, f, g);
            QueryFacts(q, d) == Facts(parts.placeholders, parts.filters || IsFiltered(QueryNode(q)),
                                      parts.aggregates || IsAggregated(QueryNode(q)), parts.virtuals)
  {
    var h := GroupingFacts(q.grouping, d);
    var inside := SixFacts(a, b, c, e, h, g);
    assert QueryFacts(q, d) == if q.filter.Some? || q.having.Some? then inside.(filters := true) else inside;
    GroupingFlag(a, b, c, e, f, g);
  }

  lemma GroupingFlag(a: Facts, b: Facts, c: Facts, e: Facts, f: Facts, g: Facts)
    ensures SixFacts(a, b, c, e, f.(aggregates := true), g) == SixFacts(a, b, c, e, f, g).(aggregates := true)
  {
  }

  lemma {:induction false} NoVirtuals(nodes: seq<Node>, d: Definition)
    ensures Virtuals(nodes, d) == 0 <==> forall n <- nodes :: !IsVirtual(n, d)
  {
    if nodes != [] {
      NoVirtuals(nodes[1..], d);
      assert nodes == [nodes[0]] + nodes[1..];
    }
  }

  ghost predicate OnlyVirtual(nodes: seq<Node>, i: nat, d: Definition) {
    i < |nodes| && forall j :: 0 <= j < |nodes| ==> (IsVirtual(nodes[j], d) <==> j == i)
  }

  lemma {:induction false} OneVirtual(nodes: seq<Node>, d: Definition)
    ensures Virtuals(nodes, d) == 1 <==> exists i :: OnlyVirtual(nodes, i, d)
  {
    if nodes != [] {
      var rest := nodes[1..];
      OneVirtual(rest, d);
      NoVirtuals(rest, d);
      if IsVirtual(nodes[0], d) {
        if Virtuals(rest, d) == 0 {
          assert forall j :: 1 <= j < |nodes| ==> nodes[j] == rest[j - 1] && rest[j - 1] in rest;
          assert OnlyVirtual(nodes, 0, d);
        }
        if i: nat :| OnlyVirtual(nodes, i, d) {
          assert i == 0;
          assert forall j :: 0 <= j < |rest| ==> rest[j] == nodes[j + 1];
        }
      } else {
        if i: nat :| OnlyVirtual(rest, i, d) {
          assert forall j :: 1 <= j < |nodes| ==> nodes[j] == rest[j - 1];
          assert OnlyVirtual(nodes, i + 1, d);
        }
        if i: nat :| OnlyVirtual(nodes, i, d) {
          assert i > 0;
          assert forall j :: 0 <= j < |rest| ==> rest[j] == nodes[j + 1];
          assert OnlyVirtual(rest, i - 1, d);
        }
      }
    }
  }

  predicate NoPlaceholder(nodes: seq<Node>) {
    forall n <- nodes :: n.ExprNode? ==> !n.e.Placeholder?
  }

  predicate NoFilter(nodes: seq<Node>) {
    forall n <- nodes :: n.QueryNode? && n.q.Select? ==> n.q.filter.None? && n.q.having.None?
  }

  predicate NoAggregate(nodes: seq<Node>) {
    forall n <- nodes ::
      (n.ExprNode? ==> !n.e.Aggregate?) && (n.QueryNode? && n.q.Select? ==> n.q.grouping.Plain?)
  }

  /** What is accepted, by what occurs in the outer query at any depth: no placeholder, no WHERE or HAVING
      and no aggregate or GROUP BY unless allowed, exactly one reference to the virtual table, and values
      for exactly the declared parameters. */
  lemma AcceptedExactly(d: Definition, outer: Query, supplied: map<string, Value>)
    ensures var nodes := QueryNodes(outer);
            Materialize(d, outer, supplied).Ok?
            <==> && NoPlaceholder(nodes)
                 && (d.allowFiltering || NoFilter(nodes)) && (d.allowAggregation || NoAggregate(nodes))
                 && (exists i :: OnlyVirtual(nodes, i, d))
                 && supplied.Keys == d.parameters
  {
    var nodes := QueryNodes(outer);
    FactsAbsent(outer, d);
    OneVirtual(nodes, d);
    QueryReads(outer, d);
  }

  lemma FactsAbsent(q: Query, d: Definition)
    ensures QueryFacts(q, d).placeholders == {} <==> NoPlaceholder(QueryNodes(q))
    ensures !QueryFacts(q, d).filters <==> NoFilter(QueryNodes(q))
    ensures !QueryFacts(q, d).aggregates <==> NoAggregate(QueryNodes(q))
  {
    QueryReads(q, d);
    PlaceholdersAbsent(QueryFacts(q, d).placeholders, QueryNodes(q));
    FiltersAbsent(QueryNodes(q));
    AggregatesAbsent(QueryNodes(q));
  }

  lemma PlaceholdersAbsent(names: set<string>, nodes: seq<Node>)
    requires forall p :: p in names <==> ExprNode(Placeholder(p)) in nodes
    ensures names == {} <==> NoPlaceholder(nodes)
  {
    if n :| n in nodes && n.ExprNode? && n.e.Placeholder? {
      assert n.e.param in names;
    }
  }

  lemma FiltersAbsent(nodes: seq<Node>)
    ensures !(exists n <- nodes :: IsFiltered(n)) <==> NoFilter(nodes)
  {
    assert forall n :: IsFiltered(n) <==> !(n.QueryNode? && n.q.Select? ==> n.q.filter.None? && n.q.having.None?);
  }

  lemma AggregatesAbsent(nodes: seq<Node>)
    ensures !(exists n <- nodes :: IsAggregated(n)) <==> NoAggregate(nodes)
  {
    assert forall n :: IsAggregated(n) <==> !(&& (n.ExprNode? ==> !n.e.Aggregate?)
                                              && (n.QueryNode? && n.q.Select? ==> n.q.grouping.Plain?));
  }

  /******* What the prepared query contains *******/

  /** Facts of a query after the rewrite, from its own and those of the base query. */
  function Replaced(f: Facts, base: Facts): Facts {
    Facts(f.placeholders + (if f.virtuals > 0 then base.placeholders else {}),
          f.filters || (f.virtuals > 0 && base.filters), f.aggregates || (f.virtuals > 0 && base.aggregates),
          f.virtuals * base.virtuals)
  }

  lemma ReplacedBoth(a: Facts, b: Facts, base: Facts)
    ensures Replaced(Both(a, b), base) == Both(Replaced(a, base), Replaced(b, base))
  {
    var x, y, z := a.virtuals, b.virtuals, base.virtuals;
    assert (x + y) * z == x * z + y * z;
  }

  lemma ReplacedFlags(f: Facts, base: Facts)
    ensures Replaced(NOTHING, base) == NOTHING
    ensures Replaced(f.(aggregates := true), base) == Replaced(f, base).(aggregates := true)
    ensures Replaced(f.(filters := true), base) == Replaced(f, base).(filters := true)
  {
  }

  lemma {:induction false} ExprReplaced(e: Expr, d: Definition)
    ensures ExprFacts(RwExpr(e, d), d) == Replaced(ExprFacts(e, d), QueryFacts(d.base, d))
    decreases e, 0
  {
    var base := QueryFacts(d.base, d);
    ReplacedFlags(NOTHING, base);
    match e
    case Lit(_) =>
    case Placeholder(_) =>
    case Col(_) =>
    case Apply(_, l, r) =>
      ExprReplaced(l, d);
      ExprReplaced(r, d);
      ReplacedBoth(ExprFacts(l, d), ExprFacts(r, d), base);
    case Aggregate(_, arg) =>
      ExprReplaced(arg, d);
      ReplacedFlags(ExprFacts(arg, d), base);
    case Exists(sub) => QueryReplaced(sub, d);
    case Scalar(sub) => QueryReplaced(sub, d);
  }

  lemma {:induction false} OptionReplaced(e: Option<Expr>, d: Definition)
    ensures OptionFacts(RwOption(e, d), d) == Replaced(OptionFacts(e, d), QueryFacts(d.base, d))
    decreases e, 0
  {
    ReplacedFlags(NOTHING, QueryFacts(d.base, d));
    if e.Some? {
      ExprReplaced(e.value, d);
    }
  }

  lemma {:induction false} ItemsReplaced(items: Items, d: Definition)
    ensures ItemsFacts(RwItems(items, d), d) == Replaced(ItemsFacts(items, d), QueryFacts(d.base, d))
    decreases items, 0
  {
    ReplacedFlags(NOTHING, QueryFacts(d.base, d));
    if items.Item? {
      ExprReplaced(items.e, d);
      ItemsReplaced(items.rest, d);
      ReplacedBoth(ExprFacts(items.e, d), ItemsFacts(items.rest, d), QueryFacts(d.base, d));
    }
  }

  lemma {:induction false} FromReplaced(f: From, d: Definition)
    ensures FromFacts(RwFrom(f, d), d) == Replaced(FromFacts(f, d), QueryFacts(d.base, d))
    decreases f, 0
  {
    var base := QueryFacts(d.base, d);
    ReplacedFlags(NOTHING, base);
    match f
    case Table(_, _, _) =>
    case Derived(sub, _) => QueryReplaced(sub, d);
    case Join(l, r, on) =>
      FromReplaced(l, d);
      FromReplaced(r, d);
      ExprReplaced(on, d);
      ReplacedBoth(FromFacts(l, d), FromFacts(r, d), base);
      ReplacedBoth(Both(FromFacts(l, d), FromFacts(r, d)), ExprFacts(on, d), base);
  }

  lemma {:induction false} CtesReplaced(ctes: Ctes, d: Definition)
    ensures CtesFacts(RwCtes(ctes, d), d) == Replaced(CtesFacts(ctes, d), QueryFacts(d.base, d))
    decreases ctes, 0
  {
    ReplacedFlags(NOTHING, QueryFacts(d.base, d));
    if ctes.Cte? {
      QueryReplaced(ctes.body, d);
      CtesReplaced(ctes.rest, d);
      ReplacedBoth(QueryFacts(ctes.body, d), CtesFacts(ctes.rest, d), QueryFacts(d.base, d));
    }
  }

  lemma {:induction false} GroupingReplaced(g: Grouping, d: Definition)
    ensures GroupingFacts(RwGrouping(g, d), d) == Replaced(GroupingFacts(g, d), QueryFacts(d.base, d))
    decreases g, 0
  {
    ReplacedFlags(NOTHING, QueryFacts(d.base, d));
    if g.Grouped? {
      ItemsReplaced(g.keys, d);
      ReplacedFlags(ItemsFacts(g.keys, d), QueryFacts(d.base, d));
    }
  }

  lemma {:induction false} QueryReplaced(q: Query, d: Definition)
    ensures QueryFacts(RwQuery(q, d), d) == Replaced(QueryFacts(q, d), QueryFacts(d.base, d))
    decreases q, 0
  {
    var base := QueryFacts(d.base, d);
    CtesReplaced(q.ctes, d);
    match q
    case Select(ctes, items, source, filter, grouping, having, _) =>
      ItemsReplaced(items, d);
      FromReplaced(source, d);
      OptionReplaced(filter, d);
      GroupingReplaced(grouping, d);
      OptionReplaced(having, d);
      var a, b := CtesFacts(ctes, d), ItemsFacts(items, d);
      var c, e := FromFacts(source, d), OptionFacts(filter, d);
      var f, g := GroupingFacts(grouping, d), OptionFacts(having, d);
      ReplacedBoth(a, b, base);
      ReplacedBoth(c, e, base);
      ReplacedBoth(f, g, base);
      ReplacedBoth(Both(a, b), Both(c, e), base);
      ReplacedBoth(Both(Both(a, b), Both(c, e)), Both(f, g), base);
      ReplacedFlags(Both(Both(Both(a, b), Both(c, e)), Both(f, g)), base);
    case SetOperation(ctes, _, l, r) =>
      QueryReplaced(l, d);
      QueryReplaced(r, d);
      ReplacedBoth(QueryFacts(l, d), QueryFacts(r, d), base);
      ReplacedBoth(CtesFacts(ctes, d), Both(QueryFacts(l, d), QueryFacts(r, d)), base);
  }

  /** A prepared query holds exactly the base query's placeholders, so for a registered definition all of
      them are bound and every binding is used; filters and aggregates that are disabled can only be the
      base query's own, and the virtual table is gone unless the base query itself names it. */
  lemma PreparedQueryIsBound(d: Definition, outer: Query, supplied: map<string, Value>)
    requires Materialize(d, outer, supplied).Ok?
    ensures var p := Materialize(d, outer, supplied).value;
            var nodes, base := QueryNodes(p.query), QueryNodes(d.base);
            && (forall x :: ExprNode(Placeholder(x)) in nodes <==> ExprNode(Placeholder(x)) in base)
            && ((forall x :: x in d.parameters <==> ExprNode(Placeholder(x)) in base)
                ==> forall x :: x in p.params.Keys <==> ExprNode(Placeholder(x)) in nodes)
            && (!d.allowFiltering ==> ((exists n <- nodes :: IsFiltered(n)) <==> exists n <- base :: IsFiltered(n)))
            && (!d.allowAggregation ==>
                  ((exists n <- nodes :: IsAggregated(n)) <==> exists n <- base :: IsAggregated(n)))
            && ((exists n <- nodes :: IsVirtual(n, d)) <==> exists n <- base :: IsVirtual(n, d))
            && p.params == supplied
  {
    var query := RwQuery(outer, d);
    QueryReplaced(outer, d);
    ReplacedOnce(QueryFacts(outer, d), QueryFacts(d.base, d));
    QueryReads(query, d);
    QueryReads(d.base, d);
    NoVirtuals(QueryNodes(query), d);
    NoVirtuals(QueryNodes(d.base), d);
  }

  lemma ReplacedOnce(f: Facts, base: Facts)
    requires f.virtuals == 1 && f.placeholders == {}
    ensures Replaced(f, base)
            == Facts(base.placeholders, f.filters || base.filters, f.aggregates || base.aggregates, base.virtuals)
  {
  }

  /******* Names the base query takes from its surroundings *******/

  function ExprFree(e: Expr): set<string> {
    match e
    case Lit(_) => {}
    case Placeholder(_) => {}
    case Col(_) => {}
    case Apply(_, l, r) => ExprFree(l) + ExprFree(r)
    case Aggregate(_, arg) => ExprFree(arg)
    case Exists(sub) => QueryFree(sub)
    case Scalar(sub) => QueryFree(sub)
  }

  function OptionFree(e: Option<Expr>): set<string> {
    if e.None? then {} else ExprFree(e.value)
  }

  function ItemsFree(items: Items): set<string> {
    match items
    case NoItems => {}
    case Item(_, e, rest) => ExprFree(e) + ItemsFree(rest)
  }

  function FromFree(f: From): set<string> {
    match f
    case Table(t, _, _) => if t.catalog.None? && t.schema.None? then {t.name} else {}
    case Derived(sub, _) => QueryFree(sub)
    case Join(l, r, on) => FromFree(l) + FromFree(r) + ExprFree(on)
  }

  function CtesFree(ctes: Ctes): set<string> {
    match ctes
    case NoCtes => {}
    case Cte(n, body, rest) => QueryFree(body) + (CtesFree(rest) - {n})
  }

  function GroupingFree(g: Grouping): set<string> {
    match g
    case Plain => {}
    case Grouped(keys) => ItemsFree(keys)
  }

  /** Unqualified table names that no WITH of the query itself binds. */
  function QueryFree(q: Query): set<string> {
    match q
    case Select(ctes, items, source, filter, grouping, having, _) =>
      CtesFree(ctes)
      + (ItemsFree(items) + FromFree(source) + OptionFree(filter) + GroupingFree(grouping) + OptionFree(having)
         - Names(ctes))
    case SetOperation(ctes, _, l, r) => CtesFree(ctes) + ((QueryFree(l) + QueryFree(r)) - Names(ctes))
  }

  /******* A successful evaluation survives being nested *******/

  predicate Same(n: string, a: Scope, b: Scope) {
    (n in a <==> n in b) && (n in a ==> a[n] == b[n])
  }

  predicate Agree(names: set<string>, a: Scope, b: Scope) {
    forall n <- names :: Same(n, a, b)
  }

  lemma FindColumnExtends(c: ColumnRef, frames: seq<Frame>, more: seq<Frame>)
    requires FindColumn(c, frames).Some?
    ensures FindColumn(c, frames + more) == FindColumn(c, frames)
  {
    if frames != [] {
      assert (frames + more)[1..] == frames[1..] + more;
    }
  }

  lemma {:induction false} ExprNests(e: Expr, grp: Group, out: seq<Frame>, more: seq<Frame>, a: Scope, b: Scope,
      w: World)
    requires EvalExpr(e, grp, out, a, w).Some?
    requires Agree(ExprFree(e), a, b)
    ensures EvalExpr(e, grp, out + more, b, w) == EvalExpr(e, grp, out, a, w)
    decreases e, 0, 0
  {
    assert Around(grp, out + more) == Around(grp, out) + more;
    match e
    case Lit(_) =>
    case Placeholder(_) =>
    case Col(c) => FindColumnExtends(c, Around(grp, out), more);
    case Apply(_, l, r) =>
      ExprNests(l, grp, out, more, a, b, w);
      ExprNests(r, grp, out, more, a, b, w);
    case Aggregate(_, arg) => EachNests(arg, grp, out, more, a, b, w);
    case Exists(sub) => QueryNests(sub, Around(grp, out), more, a, b, w);
    case Scalar(sub) => QueryNests(sub, Around(grp, out), more, a, b, w);
  }

  lemma {:induction false} EachNests(e: Expr, rows: Group, out: seq<Frame>, more: seq<Frame>, a: Scope, b: Scope,
      w: World)
    requires EvalEach(e, rows, out, a, w).Some?
    requires Agree(ExprFree(e), a, b)
    ensures EvalEach(e, rows, out + more, b, w) == EvalEach(e, rows, out, a, w)
    decreases e, 1, |rows|
  {
    if rows != [] {
      ExprNests(e, [rows[0]], out, more, a, b, w);
      EachNests(e, rows[1..], out, more, a, b, w);
    }
  }

  lemma {:induction false} ItemsNest(items: Items, grp: Group, out: seq<Frame>, more: seq<Frame>, a: Scope, b: Scope,
      w: World)
    requires EvalItems(items, grp, out, a, w).Some?
    requires Agree(ItemsFree(items), a, b)
    ensures EvalItems(items, grp, out + more, b, w) == EvalItems(items, grp, out, a, w)
    decreases items, 0, 0
  {
    if items.Item? {
      ExprNests(items.e, grp, out, more, a, b, w);
      ItemsNest(items.rest, grp, out, more, a, b, w);
    }
  }

  lemma {:induction false} KeepNests(e: Expr, gs: seq<Group>, out: seq<Frame>, more: seq<Frame>, a: Scope, b: Scope,
      w: World)
    requires Keep(e, gs, out, a, w).Some?
    requires Agree(ExprFree(e), a, b)
    ensures Keep(e, gs, out + more, b, w) == Keep(e, gs, out, a, w)
    decreases e, 1, |gs|
  {
    if gs != [] {
      ExprNests(e, gs[0], out, more, a, b, w);
      KeepNests(e, gs[1..], out, more, a, b, w);
    }
  }

  lemma {:induction false} FilterNests(e: Option<Expr>, gs: seq<Group>, out: seq<Frame>, more: seq<Frame>, a: Scope,
      b: Scope, w: World)
    requires EvalFilter(e, gs, out, a, w).Some?
    requires Agree(OptionFree(e), a, b)
    ensures EvalFilter(e, gs, out + more, b, w) == EvalFilter(e, gs, out, a, w)
    decreases e, 0, 0
  {
    if e.Some? {
      KeepNests(e.value, gs, out, more, a, b, w);
    }
  }

  lemma {:induction false} ProjectNests(items: Items, gs: seq<Group>, out: seq<Frame>, more: seq<Frame>, a: Scope,
      b: Scope, w: World)
    requires Project(items, gs, out, a, w).Some?
    requires Agree(ItemsFree(items), a, b)
    ensures Project(items, gs, out + more, b, w) == Project(items, gs, out, a, w)
    decreases items, 1, |gs|
  {
    if gs != [] {
      ItemsNest(items, gs[0], out, more, a, b, w);
      ProjectNests(items, gs[1..], out, more, a, b, w);
    }
  }

  lemma {:induction false} GroupingNests(g: Grouping, gs: seq<Group>, out: seq<Frame>, more: seq<Frame>, a: Scope,
      b: Scope, w: World)
    requires EvalGrouping(g, gs, out, a, w).Some?
    requires Agree(GroupingFree(g), a, b)
    ensures EvalGrouping(g, gs, out + more, b, w) == EvalGrouping(g, gs, out, a, w)
    decreases g, 0, 0
  {
    if g.Grouped? && g.keys != NoItems {
      ProjectNests(g.keys, Singles(Flatten(gs)), out, more, a, b, w);
    }
  }

  lemma {:induction false} FromNests(f: From, out: seq<Frame>, more: seq<Frame>, a: Scope, b: Scope, w: World)
    requires EvalFrom(f, out, a, w).Some?
    requires Agree(FromFree(f), a, b)
    ensures EvalFrom(f, out + more, b, w) == EvalFrom(f, out, a, w)
    decreases f, 0, 0
  {
    match f
    case Table(t, _, _) =>
      if t.catalog.None? && t.schema.None? {
        assert Same(t.name, a, b);
      }
    case Derived(sub, _) => QueryNests(sub, out, more, a, b, w);
    case Join(l, r, on) =>
      FromNests(l, out, more, a, b, w);
      FromNests(r, out, more, a, b, w);
      var rows := Product(EvalFrom(l, out, a, w).value, EvalFrom(r, out, a, w).value);
      KeepNests(on, Singles(rows), out, more, a, b, w);
  }

  lemma {:induction false} CtesNest(ctes: Ctes, out: seq<Frame>, more: seq<Frame>, a: Scope, b: Scope, w: World)
    requires EvalCtes(ctes, out, a, w).Some?
    requires Agree(CtesFree(ctes), a, b)
    ensures EvalCtes(ctes, out + more, b, w).Some?
    ensures forall n :: n in Names(ctes) || Same(n, a, b) ==>
                          Same(n, EvalCtes(ctes, out, a, w).value, EvalCtes(ctes, out + more, b, w).value)
    decreases ctes, 0, 0
  {
    if ctes.Cte? {
      QueryNests(ctes.body, out, more, a, b, w);
      var rel := EvalQuery(ctes.body, out, a, w).value;
      forall n | n in CtesFree(ctes.rest) ensures Same(n, a[ctes.name := rel], b[ctes.name := rel]) {
        assert n == ctes.name || Same(n, a, b);
      }
      CtesNest(ctes.rest, out, more, a[ctes.name := rel], b[ctes.name := rel], w);
    }
  }

  lemma {:induction false} GroupsNest(q: Query, rows: seq<Frame>, out: seq<Frame>, more: seq<Frame>, a: Scope,
      b: Scope, w: World)
    requires q.Select? && EvalGroups(q, rows, out, a, w).Some?
    requires Agree(OptionFree(q.filter) + GroupingFree(q.grouping) + OptionFree(q.having), a, b)
    ensures EvalGroups(q, rows, out + more, b, w) == EvalGroups(q, rows, out, a, w)
    decreases q, 0, 0
  {
    FilterNests(q.filter, Singles(rows), out, more, a, b, w);
    var kept := EvalFilter(q.filter, Singles(rows), out, a, w).value;
    GroupingNests(q.grouping, kept, out, more, a, b, w);
    var groups := EvalGrouping(q.grouping, kept, out, a, w).value;
    FilterNests(q.having, groups, out, more, a, b, w);
  }

  lemma {:induction false} BodyNests(q: Query, out: seq<Frame>, more: seq<Frame>, a: Scope, b: Scope, w: World)
    requires q.Select? && EvalBody(q, out, a, w).Some?
    requires Agree(ItemsFree(q.items) + FromFree(q.source) + OptionFree(q.filter)
                   + GroupingFree(q.grouping) + OptionFree(q.having), a, b)
    ensures EvalBody(q, out + more, b, w) == EvalBody(q, out, a, w)
    decreases q, 1, 0
  {
    FromNests(q.source, out, more, a, b, w);
    var rows := EvalFrom(q.source, out, a, w).value;
    GroupsNest(q, rows, out, more, a, b, w);
    ProjectNests(q.items, EvalGroups(q, rows, out, a, w).value, out, more, a, b, w);
  }

  lemma {:induction false} QueryNests(q: Query, out: seq<Frame>, more: seq<Frame>, a: Scope, b: Scope, w: World)
    requires EvalQuery(q, out, a, w).Some?
    requires Agree(QueryFree(q), a, b)
    ensures EvalQuery(q, out + more, b, w) == EvalQuery(q, out, a, w)
    decreases q, 2, 0
  {
    CtesNest(q.ctes, out, more, a, b, w);
    var ia := EvalCtes(q.ctes, out, a, w).value;
    var ib := EvalCtes(q.ctes, out + more, b, w).value;
    if q.Select? {
      BodyNests(q, out, more, ia, ib, w);
    } else {
      QueryNests(q.l, out, more, ia, ib, w);
      QueryNests(q.r, out, more, ia, ib, w);
    }
  }

  /******* When the rewrite is transparent *******/

  predicate NamesVirtual(c: ColumnRef, d: Definition) {
    c.FullyQualified? && c.schema == d.virtualSchema && c.table == d.virtualName
  }

  predicate ExprOpen(e: Expr, scope: set<string>, d: Definition) {
    match e
    case Lit(_) => true
    case Placeholder(_) => true
    case Col(c) => !NamesVirtual(c, d)
    case Apply(_, l, r) => ExprOpen(l, scope, d) && ExprOpen(r, scope, d)
    case Aggregate(_, arg) => ExprOpen(arg, scope, d)
    case Exists(sub) => QueryOpen(sub, scope, d)
    case Scalar(sub) => QueryOpen(sub, scope, d)
  }

  predicate OptionOpen(e: Option<Expr>, scope: set<string>, d: Definition) {
    e.Some? ==> ExprOpen(e.value, scope, d)
  }

  predicate ItemsOpen(items: Items, scope: set<string>, d: Definition) {
    match items
    case NoItems => true
    case Item(_, e, rest) => ExprOpen(e, scope, d) && ItemsOpen(rest, scope, d)
  }

  /** scope holds the WITH names visible at f. The virtual reference must not be one of them, must not
      rename its columns, and must not sit where they hide a table the base query reads. */
  predicate FromOpen(f: From, scope: set<string>, d: Definition) {
    match f
    case Table(t, _, columnAliases) =>
      MatchesVirtual(t, d) ==>
        && columnAliases == []
        && (t.schema.None? ==> t.name !in scope)
        && QueryFree(d.base) !! scope
    case Derived(sub, _) => QueryOpen(sub, scope, d)
    case Join(l, r, on) => FromOpen(l, scope, d) && FromOpen(r, scope, d) && ExprOpen(on, scope, d)
  }

  predicate CtesOpen(ctes: Ctes, scope: set<string>, d: Definition) {
    match ctes
    case NoCtes => true
    case Cte(n, body, rest) => QueryOpen(body, scope, d) && CtesOpen(rest, scope + {n}, d)
  }

  predicate GroupingOpen(g: Grouping, scope: set<string>, d: Definition) {
    g.Grouped? ==> ItemsOpen(g.keys, scope, d)
  }

  predicate QueryOpen(q: Query, scope: set<string>, d: Definition) {
    match q
    case Select(ctes, items, source, filter, grouping, having, _) =>
      var inner := scope + Names(ctes);
      && CtesOpen(ctes, scope, d)
      && ItemsOpen(items, inner, d)
      && FromOpen(source, inner, d)
      && OptionOpen(filter, inner, d)
      && GroupingOpen(grouping, inner, d)
      && OptionOpen(having, inner, d)
    case SetOperation(ctes, _, l, r) =>
      var inner := scope + Names(ctes);
      CtesOpen(ctes, scope, d) && QueryOpen(l, inner, d) && QueryOpen(r, inner, d)
  }

  /** Nothing in the way of the rewrite: no WITH, no column list, no column qualified by a schema. */
  predicate Simple(n: Node) {
    match n
    case ExprNode(e) => e.Col? ==> !e.c.FullyQualified?
    case FromNode(f) => f.Table? ==> f.columnAliases == []
    case QueryNode(q) => q.ctes.NoCtes?
  }

  lemma {:induction false} SimpleExprIsOpen(e: Expr, d: Definition)
    requires forall n <- ExprNodes(e) :: Simple(n)
    ensures ExprOpen(e, {}, d)
    decreases e, 0
  {
    assert ExprNode(e) in ExprNodes(e);
    match e
    case Apply(_, l, r) =>
      SimpleExprIsOpen(l, d);
      SimpleExprIsOpen(r, d);
    case Aggregate(_, arg) => SimpleExprIsOpen(arg, d);
    case Exists(sub) => SimpleQueryIsOpen(sub, d);
    case Scalar(sub) => SimpleQueryIsOpen(sub, d);
    case _ =>
  }

  lemma {:induction false} SimpleItemsAreOpen(items: Items, d: Definition)
    requires forall n <- ItemsNodes(items) :: Simple(n)
    ensures ItemsOpen(items, {}, d)
    decreases items, 0
  {
    if items.Item? {
      SimpleExprIsOpen(items.e, d);
      SimpleItemsAreOpen(items.rest, d);
    }
  }

  lemma {:induction false} SimpleOptionIsOpen(e: Option<Expr>, d: Definition)
    requires forall n <- OptionNodes(e) :: Simple(n)
    ensures OptionOpen(e, {}, d)
    decreases e, 0
  {
    if e.Some? {
      SimpleExprIsOpen(e.value, d);
    }
  }

  lemma {:induction false} SimpleGroupingIsOpen(g: Grouping, d: Definition)
    requires forall n <- GroupingNodes(g) :: Simple(n)
    ensures GroupingOpen(g, {}, d)
    decreases g, 0
  {
    if g.Grouped? {
      SimpleItemsAreOpen(g.keys, d);
    }
  }

  lemma {:induction false} SimpleFromIsOpen(f: From, d: Definition)
    requires forall n <- FromNodes(f) :: Simple(n)
    ensures FromOpen(f, {}, d)
    decreases f, 0
  {
    assert FromNode(f) in FromNodes(f);
    match f
    case Table(_, _, _) =>
    case Derived(sub, _) => SimpleQueryIsOpen(sub, d);
    case Join(l, r, on) =>
      SimpleFromIsOpen(l, d);
      SimpleFromIsOpen(r, d);
      SimpleExprIsOpen(on, d);
  }

  /** Every query without these three is transparent to the rewrite. */
  lemma {:induction false} SimpleQueryIsOpen(q: Query, d: Definition)
    requires forall n <- QueryNodes(q) :: Simple(n)
    ensures QueryOpen(q, {}, d)
    decreases q, 0
  {
    assert QueryNode(q) in QueryNodes(q);
    assert {} + Names(q.ctes) == Names(q.ctes) == {};
    match q
    case Select(_, items, source, filter, grouping, having, _) =>
      SimpleItemsAreOpen(items, d);
      SimpleFromIsOpen(source, d);
      SimpleOptionIsOpen(filter, d);
      SimpleGroupingIsOpen(grouping, d);
      SimpleOptionIsOpen(having, d);
    case SetOperation(_, _, l, r) =>
      SimpleQueryIsOpen(l, d);
      SimpleQueryIsOpen(r, d);
  }

  /******* Frames before and after the rewrite *******/

  // The rewritten reference is a derived table, so its rows lose the stored name. Nothing else changes.
  function EraseBinding(b: Binding, d: Definition): Binding {
    if b.origin.Some? && MatchesVirtual(b.origin.value, d) then b.(origin := None) else b
  }

  function EraseFrame(f: Frame, d: Definition): (r: Frame)
    ensures |r| == |f| && forall i :: 0 <= i < |f| ==> r[i] == EraseBinding(f[i], d)
  {
    if f == [] then [] else [EraseBinding(f[0], d)] + EraseFrame(f[1..], d)
  }

  function Erase(rows: seq<Frame>, d: Definition): (r: seq<Frame>)
    ensures |r| == |rows| && forall i :: 0 <= i < |rows| ==> r[i] == EraseFrame(rows[i], d)
  {
    if rows == [] then [] else [EraseFrame(rows[0], d)] + Erase(rows[1..], d)
  }

  function EraseGroups(gs: seq<Group>, d: Definition): (r: seq<Group>)
    ensures |r| == |gs| && forall i :: 0 <= i < |gs| ==> r[i] == Erase(gs[i], d)
  {
    if gs == [] then [] else [Erase(gs[0], d)] + EraseGroups(gs[1..], d)
  }

  function EraseOption(rows: Option<seq<Frame>>, d: Definition): Option<seq<Frame>> {
    if rows.None? then None else Some(Erase(rows.value, d))
  }

  function EraseGroupsOption(gs: Option<seq<Group>>, d: Definition): Option<seq<Group>> {
    if gs.None? then None else Some(EraseGroups(gs.value, d))
  }

  lemma {:induction false} HitsErase(c: ColumnRef, f: Frame, d: Definition)
    requires ValidDefinition(d) && !NamesVirtual(c, d)
    ensures Hits(c, EraseFrame(f, d)) == Hits(c, f)
  {
    if f != [] {
      HitsErase(c, f[1..], d);
      assert EraseFrame(f, d)[1..] == EraseFrame(f[1..], d);
      if f[0].origin.Some? && f[0].origin.value.schema.Some? && MatchesVirtual(f[0].origin.value, d) {
        SplitDotted(f[0].origin.value.schema.value, f[0].origin.value.name, d);
      }
    }
  }

  lemma {:induction false} FindErase(c: ColumnRef, frames: seq<Frame>, d: Definition)
    requires ValidDefinition(d) && !NamesVirtual(c, d)
    ensures FindColumn(c, Erase(frames, d)) == FindColumn(c, frames)
  {
    if frames != [] {
      HitsErase(c, frames[0], d);
      FindErase(c, frames[1..], d);
      assert Erase(frames, d)[1..] == Erase(frames[1..], d);
    }
  }

  /** Comparing the dotted strings is comparing the parts, because the definition's own have no dot. */
  lemma SplitDotted(schema: string, name: string, d: Definition)
    requires ValidDefinition(d)
    ensures schema + "." + name == d.virtualSchema + "." + d.virtualName
            <==> schema == d.virtualSchema && name == d.virtualName
  {
    var joined := schema + "." + name;
    var wanted := d.virtualSchema + "." + d.virtualName;
    if joined == wanted {
      assert joined[|schema|] == '.' && wanted[|d.virtualSchema|] == '.';
      assert |schema| == |d.virtualSchema|;
      assert joined[..|schema|] == schema && wanted[..|schema|] == d.virtualSchema;
      assert joined[|schema| + 1..] == name && wanted[|schema| + 1..] == d.virtualName;
    }
  }

  lemma {:induction false} BindErase(origin: Option<TableName>, alias: string, cols: seq<string>,
      rows: seq<seq<Value>>, d: Definition)
    ensures Erase(Bind(origin, alias, cols, rows), d)
            == Bind(if origin.Some? && MatchesVirtual(origin.value, d) then None else origin, alias, cols, rows)
  {
    if rows != [] {
      BindErase(origin, alias, cols, rows[1..], d);
      var bound := Bind(origin, alias, cols, rows);
      assert bound[1..] == Bind(origin, alias, cols, rows[1..]);
      var b := Binding(origin, alias, cols, rows[0]);
      assert bound[0] == [b];
      assert EraseFrame([b], d) == [EraseBinding(b, d)];
    }
  }

  lemma EraseAppend(a: seq<Frame>, b: seq<Frame>, d: Definition)
    ensures Erase(a + b, d) == Erase(a, d) + Erase(b, d)
  {
  }

  lemma ErasePut(x: Frame, rest: seq<Frame>, d: Definition)
    ensures Erase([x] + rest, d) == [EraseFrame(x, d)] + Erase(rest, d)
  {
  }

  lemma EraseFrames(a: Frame, b: Frame, d: Definition)
    ensures EraseFrame(a + b, d) == EraseFrame(a, d) + EraseFrame(b, d)
  {
  }

  lemma {:induction false} BesideErase(l: Frame, rs: seq<Frame>, d: Definition)
    ensures Erase(Beside(l, rs), d) == Beside(EraseFrame(l, d), Erase(rs, d))
  {
    if rs != [] {
      BesideErase(l, rs[1..], d);
      EraseFrames(l, rs[0], d);
      ErasePut(l + rs[0], Beside(l, rs[1..]), d);
    }
  }

  lemma {:induction false} ProductErase(ls: seq<Frame>, rs: seq<Frame>, d: Definition)
    ensures Erase(Product(ls, rs), d) == Product(Erase(ls, d), Erase(rs, d))
  {
    if ls != [] {
      ProductErase(ls[1..], rs, d);
      BesideErase(ls[0], rs, d);
      EraseAppend(Beside(ls[0], rs), Product(ls[1..], rs), d);
      assert Erase(ls, d)[1..] == Erase(ls[1..], d);
    }
  }

  lemma {:induction false} SinglesErase(rows: seq<Frame>, d: Definition)
    ensures EraseGroups(Singles(rows), d) == Singles(Erase(rows, d))
  {
    if rows != [] {
      SinglesErase(rows[1..], d);
      assert Singles(rows)[1..] == Singles(rows[1..]);
      assert Erase([rows[0]], d) == [EraseFrame(rows[0], d)];
      assert Erase(rows, d)[1..] == Erase(rows[1..], d);
    }
  }

  lemma {:induction false} FlattenErase(gs: seq<Group>, d: Definition)
    ensures Erase(Flatten(gs), d) == Flatten(EraseGroups(gs, d))
  {
    if gs != [] {
      FlattenErase(gs[1..], d);
      EraseAppend(gs[0], Flatten(gs[1..]), d);
      assert EraseGroups(gs, d)[1..] == EraseGroups(gs[1..], d);
    }
  }

  lemma {:induction false} WithKeyErase(k: seq<Value>, keys: seq<seq<Value>>, rows: seq<Frame>, d: Definition)
    requires |keys| == |rows|
    ensures Erase(WithKey(k, keys, rows), d) == WithKey(k, keys, Erase(rows, d))
  {
    if rows != [] {
      WithKeyErase(k, keys[1..], rows[1..], d);
      if keys[0] == k {
        ErasePut(rows[0], WithKey(k, keys[1..], rows[1..]), d);
      }
    }
  }

  lemma {:induction false} WithoutKeyErase(k: seq<Value>, keys: seq<seq<Value>>, rows: seq<Frame>, d: Definition)
    requires |keys| == |rows|
    ensures Erase(WithoutKey(k, keys, rows), d) == WithoutKey(k, keys, Erase(rows, d))
  {
    if rows != [] {
      WithoutKeyErase(k, keys[1..], rows[1..], d);
      if keys[0] != k {
        ErasePut(rows[0], WithoutKey(k, keys[1..], rows[1..]), d);
      }
    }
  }

  lemma {:induction false} PartitionErase(keys: seq<seq<Value>>, rows: seq<Frame>, d: Definition)
    requires |keys| == |rows|
    ensures EraseGroups(Partition(keys, rows), d) == Partition(keys, Erase(rows, d))
    decreases |rows|
  {
    if rows != [] {
      WithKeyErase(keys[0], keys[1..], rows[1..], d);
      WithoutKeyErase(keys[0], keys[1..], rows[1..], d);
      assert Erase(rows, d)[1..] == Erase(rows[1..], d);
      var first := WithKey(keys[0], keys[1..], rows[1..]);
      EraseAppend([rows[0]], first, d);
      assert Erase([rows[0]], d) == [EraseFrame(rows[0], d)];
      var others := WithoutKey(keys[0], keys[1..], rows[1..]);
      PartitionErase(KeyPositions(keys[0], keys[1..]), others, d);
      var rest := Partition(KeyPositions(keys[0], keys[1..]), others);
      assert Partition(keys, rows) == [[rows[0]] + first] + rest;
      assert Partition(keys, rows)[1..] == rest;
    }
  }

  /******* The rewrite preserves meaning *******/

  /** The database as the outer query's author sees it: the virtual table exists and holds r. */
  function Install(w: World, d: Definition, r: Relation): World {
    World(w.tables[TableName(None, None, d.virtualName) := r]
          [TableName(None, Some(d.virtualSchema), d.virtualName) := r], map[])
  }

  /** w runs the rewritten query; the base query alone returns r there. */
  predicate Runs(d: Definition, w: World, r: Relation) {
    ValidDefinition(d) && EvalQuery(d.base, [], map[], w) == Some(r)
  }

  lemma MatchesExactly(t: TableName, d: Definition)
    requires ValidDefinition(d)
    ensures MatchesVirtual(t, d)
            <==> t == TableName(None, None, d.virtualName)
                 || t == TableName(None, Some(d.virtualSchema), d.virtualName)
  {
    if t.schema.Some? {
      SplitDotted(t.schema.value, t.name, d);
    }
  }

  lemma {:induction false} ExprRewrites(e: Expr, grp: Group, out: seq<Frame>, scope: Scope, d: Definition, w: World,
      r: Relation)
    requires Runs(d, w, r) && ExprOpen(e, scope.Keys, d) && ExprFacts(e, d).placeholders == {}
    ensures EvalExpr(RwExpr(e, d), Erase(grp, d), Erase(out, d), scope, w)
        == EvalExpr(e, grp, out, scope, Install(w, d, r))
    decreases e, 0, 0
  {
    assert Around(Erase(grp, d), Erase(out, d)) == Erase(Around(grp, out), d);
    match e
    case Lit(_) =>
    case Placeholder(_) => assert false;
    case Col(c) => FindErase(c, Around(grp, out), d);
    case Apply(_, a, b) =>
      ExprRewrites(a, grp, out, scope, d, w, r);
      ExprRewrites(b, grp, out, scope, d, w, r);
    case Aggregate(_, arg) => EachRewrites(arg, grp, out, scope, d, w, r);
    case Exists(sub) => QueryRewrites(sub, Around(grp, out), scope, d, w, r);
    case Scalar(sub) => QueryRewrites(sub, Around(grp, out), scope, d, w, r);
  }

  lemma {:induction false} EachRewrites(e: Expr, rows: Group, out: seq<Frame>, scope: Scope, d: Definition, w: World,
      r: Relation)
    requires Runs(d, w, r) && ExprOpen(e, scope.Keys, d) && ExprFacts(e, d).placeholders == {}
    ensures EvalEach(RwExpr(e, d), Erase(rows, d), Erase(out, d), scope, w)
        == EvalEach(e, rows, out, scope, Install(w, d, r))
    decreases e, 1, |rows|
  {
    if rows != [] {
      ExprRewrites(e, [rows[0]], out, scope, d, w, r);
      EachRewrites(e, rows[1..], out, scope, d, w, r);
      assert Erase(rows, d)[1..] == Erase(rows[1..], d);
      assert [Erase(rows, d)[0]] == Erase([rows[0]], d);
    }
  }

  lemma {:induction false} ItemsRewrite(items: Items, grp: Group, out: seq<Frame>, scope: Scope, d: Definition,
      w: World, r: Relation)
    requires Runs(d, w, r) && ItemsOpen(items, scope.Keys, d) && ItemsFacts(items, d).placeholders == {}
    ensures EvalItems(RwItems(items, d), Erase(grp, d), Erase(out, d), scope, w)
            == EvalItems(items, grp, out, scope, Install(w, d, r))
    ensures Labels(RwItems(items, d)) == Labels(items)
    decreases items, 0, 0
  {
    if items.Item? {
      ExprRewrites(items.e, grp, out, scope, d, w, r);
      ItemsRewrite(items.rest, grp, out, scope, d, w, r);
    }
  }

  lemma {:induction false} KeepRewrites(e: Expr, gs: seq<Group>, out: seq<Frame>, scope: Scope, d: Definition,
      w: World, r: Relation)
    requires Runs(d, w, r) && ExprOpen(e, scope.Keys, d) && ExprFacts(e, d).placeholders == {}
    ensures Keep(RwExpr(e, d), EraseGroups(gs, d), Erase(out, d), scope, w)
            == EraseGroupsOption(Keep(e, gs, out, scope, Install(w, d, r)), d)
    decreases e, 1, |gs|
  {
    if gs != [] {
      ExprRewrites(e, gs[0], out, scope, d, w, r);
      KeepRewrites(e, gs[1..], out, scope, d, w, r);
      assert EraseGroups(gs, d)[1..] == EraseGroups(gs[1..], d);
      var rest := Keep(e, gs[1..], out, scope, Install(w, d, r));
      if rest.Some? {
        assert EraseGroups([gs[0]] + rest.value, d) == [Erase(gs[0], d)] + EraseGroups(rest.value, d);
      }
    }
  }

  lemma {:induction false} FilterRewrites(e: Option<Expr>, gs: seq<Group>, out: seq<Frame>, scope: Scope,
      d: Definition, w: World, r: Relation)
    requires Runs(d, w, r) && OptionOpen(e, scope.Keys, d) && OptionFacts(e, d).placeholders == {}
    ensures EvalFilter(RwOption(e, d), EraseGroups(gs, d), Erase(out, d), scope, w)
            == EraseGroupsOption(EvalFilter(e, gs, out, scope, Install(w, d, r)), d)
    decreases e, 0, 0
  {
    if e.Some? {
      KeepRewrites(e.value, gs, out, scope, d, w, r);
    }
  }

  lemma {:induction false} ProjectRewrites(items: Items, gs: seq<Group>, out: seq<Frame>, scope: Scope, d: Definition,
      w: World, r: Relation)
    requires Runs(d, w, r) && ItemsOpen(items, scope.Keys, d) && ItemsFacts(items, d).placeholders == {}
    ensures Project(RwItems(items, d), EraseGroups(gs, d), Erase(out, d), scope, w)
            == Project(items, gs, out, scope, Install(w, d, r))
    ensures Labels(RwItems(items, d)) == Labels(items)
    decreases items, 1, |gs|
  {
    ItemsRewrite(items, [], out, scope, d, w, r);
    if gs != [] {
      ItemsRewrite(items, gs[0], out, scope, d, w, r);
      ProjectRewrites(items, gs[1..], out, scope, d, w, r);
      assert EraseGroups(gs, d)[1..] == EraseGroups(gs[1..], d);
    }
  }

  lemma {:induction false} GroupingRewrites(g: Grouping, gs: seq<Group>, out: seq<Frame>, scope: Scope, d: Definition,
      w: World, r: Relation)
    requires Runs(d, w, r) && GroupingOpen(g, scope.Keys, d) && GroupingFacts(g, d).placeholders == {}
    ensures EvalGrouping(RwGrouping(g, d), EraseGroups(gs, d), Erase(out, d), scope, w)
            == EraseGroupsOption(EvalGrouping(g, gs, out, scope, Install(w, d, r)), d)
    decreases g, 0, 0
  {
    if g.Grouped? {
      var rows := Flatten(gs);
      FlattenErase(gs, d);
      if g.keys == NoItems {
        assert EraseGroups([rows], d) == [Erase(rows, d)];
      } else {
        ProjectRewrites(g.keys, Singles(rows), out, scope, d, w, r);
        SinglesErase(rows, d);
        var ks := Project(g.keys, Singles(rows), out, scope, Install(w, d, r));
        if ks.Some? {
          PartitionErase(ks.value, rows, d);
        }
      }
    }
  }

  lemma {:induction false} VirtualRewrites(t: TableName, alias: Option<string>, out: seq<Frame>, scope: Scope,
      d: Definition, w: World, r: Relation)
    requires Runs(d, w, r) && MatchesVirtual(t, d) && FromOpen(Table(t, alias, []), scope.Keys, d)
    ensures EvalFrom(RwFrom(Table(t, alias, []), d), Erase(out, d), scope, w)
            == EraseOption(EvalFrom(Table(t, alias, []), out, scope, Install(w, d, r)), d)
  {
    MatchesExactly(t, d);
    QueryNests(d.base, [], Erase(out, d), map[], scope, w);
    assert [] + Erase(out, d) == Erase(out, d);
    var shown := if alias.Some? then alias.value else t.name;
    assert Resolve(t, scope, Install(w, d, r)) == Some(r);
    assert Renamed(r.cols, []) == Some(r.cols) by { assert [] + r.cols[0..] == r.cols; }
    BindErase(if alias.Some? then None else Some(t), shown, r.cols, r.rows, d);
  }

  lemma {:induction false} FromRewrites(f: From, out: seq<Frame>, scope: Scope, d: Definition, w: World, r: Relation)
    requires Runs(d, w, r) && FromOpen(f, scope.Keys, d) && FromFacts(f, d).placeholders == {}
    ensures EvalFrom(RwFrom(f, d), Erase(out, d), scope, w) == EraseOption(EvalFrom(f, out, scope, Install(w, d, r)), d)
    decreases f, 0, 0
  {
    var seen := Install(w, d, r);
    match f
    case Table(t, alias, columnAliases) =>
      if MatchesVirtual(t, d) {
        VirtualRewrites(t, alias, out, scope, d, w, r);
      } else {
        MatchesExactly(t, d);
        assert Resolve(t, scope, w) == Resolve(t, scope, seen);
        var rel := Resolve(t, scope, w);
        if rel.Some? && Renamed(rel.value.cols, columnAliases).Some? {
          var cols := Renamed(rel.value.cols, columnAliases).value;
          BindErase(if alias.Some? then None else Some(t), if alias.Some? then alias.value else t.name, cols,
            rel.value.rows, d);
        }
      }
    case Derived(sub, name) =>
      QueryRewrites(sub, out, scope, d, w, r);
      var rel := EvalQuery(sub, out, scope, seen);
      if rel.Some? {
        BindErase(None, name, rel.value.cols, rel.value.rows, d);
      }
    case Join(a, b, on) =>
      FromRewrites(a, out, scope, d, w, r);
      FromRewrites(b, out, scope, d, w, r);
      var ls, rs := EvalFrom(a, out, scope, seen), EvalFrom(b, out, scope, seen);
      if ls.Some? && rs.Some? {
        ProductErase(ls.value, rs.value, d);
        SinglesErase(Product(ls.value, rs.value), d);
        KeepRewrites(on, Singles(Product(ls.value, rs.value)), out, scope, d, w, r);
        var kept := Keep(on, Singles(Product(ls.value, rs.value)), out, scope, seen);
        if kept.Some? {
          FlattenErase(kept.value, d);
        }
      }
  }

  lemma {:induction false} CtesRewrite(ctes: Ctes, out: seq<Frame>, scope: Scope, d: Definition, w: World, r: Relation)
    requires Runs(d, w, r) && CtesOpen(ctes, scope.Keys, d) && CtesFacts(ctes, d).placeholders == {}
    ensures EvalCtes(RwCtes(ctes, d), Erase(out, d), scope, w) == EvalCtes(ctes, out, scope, Install(w, d, r))
    decreases ctes, 0, 0
  {
    if ctes.Cte? {
      QueryRewrites(ctes.body, out, scope, d, w, r);
      var rel := EvalQuery(ctes.body, out, scope, Install(w, d, r));
      if rel.Some? {
        assert scope[ctes.name := rel.value].Keys == scope.Keys + {ctes.name};
        CtesRewrite(ctes.rest, out, scope[ctes.name := rel.value], d, w, r);
      }
    }
  }

  predicate NoPlaceholders(q: Query, d: Definition)
    requires q.Select?
  {
    && ItemsFacts(q.items, d).placeholders == {}
    && FromFacts(q.source, d).placeholders == {}
    && OptionFacts(q.filter, d).placeholders == {}
    && GroupingFacts(q.grouping, d).placeholders == {}
    && OptionFacts(q.having, d).placeholders == {}
  }

  lemma {:induction false} GroupsRewrite(q: Query, rows: seq<Frame>, out: seq<Frame>, inner: Scope, d: Definition,
      w: World, r: Relation)
    requires Runs(d, w, r) && q.Select? && NoPlaceholders(q, d)
    requires OptionOpen(q.filter, inner.Keys, d) && GroupingOpen(q.grouping, inner.Keys, d)
        && OptionOpen(q.having, inner.Keys, d)
    ensures EvalGroups(RwQuery(q, d), Erase(rows, d), Erase(out, d), inner, w)
            == EraseGroupsOption(EvalGroups(q, rows, out, inner, Install(w, d, r)), d)
    decreases q, 0, 0
  {
    var seen := Install(w, d, r);
    SinglesErase(rows, d);
    FilterRewrites(q.filter, Singles(rows), out, inner, d, w, r);
    var kept := EvalFilter(q.filter, Singles(rows), out, inner, seen);
    if kept.Some? {
      GroupingRewrites(q.grouping, kept.value, out, inner, d, w, r);
      var groups := EvalGrouping(q.grouping, kept.value, out, inner, seen);
      if groups.Some? {
        FilterRewrites(q.having, groups.value, out, inner, d, w, r);
      }
    }
  }

  lemma {:induction false} BodyRewrites(q: Query, out: seq<Frame>, inner: Scope, d: Definition, w: World, r: Relation)
    requires Runs(d, w, r) && q.Select? && NoPlaceholders(q, d)
    requires ItemsOpen(q.items, inner.Keys, d) && FromOpen(q.source, inner.Keys, d)
    requires OptionOpen(q.filter, inner.Keys, d) && GroupingOpen(q.grouping, inner.Keys, d)
        && OptionOpen(q.having, inner.Keys, d)
    ensures EvalBody(RwQuery(q, d), Erase(out, d), inner, w) == EvalBody(q, out, inner, Install(w, d, r))
    decreases q, 1, 0
  {
    FromRewrites(q.source, out, inner, d, w, r);
    var rows := EvalFrom(q.source, out, inner, Install(w, d, r));
    if rows.Some? {
      GroupsRewrite(q, rows.value, out, inner, d, w, r);
      var groups := EvalGroups(q, rows.value, out, inner, Install(w, d, r));
      if groups.Some? {
        ProjectRewrites(q.items, groups.value, out, inner, d, w, r);
      }
    }
  }

  lemma {:induction false} QueryRewrites(q: Query, out: seq<Frame>, scope: Scope, d: Definition, w: World, r: Relation)
    requires Runs(d, w, r) && QueryOpen(q, scope.Keys, d) && QueryFacts(q, d).placeholders == {}
    ensures EvalQuery(RwQuery(q, d), Erase(out, d), scope, w) == EvalQuery(q, out, scope, Install(w, d, r))
    decreases q, 2, 0
  {
    CtesRewrite(q.ctes, out, scope, d, w, r);
    var made := EvalCtes(q.ctes, out, scope, Install(w, d, r));
    if made.Some? {
      if q.Select? {
        BodyRewrites(q, out, made.value, d, w, r);
      } else {
        QueryRewrites(q.l, out, made.value, d, w, r);
        QueryRewrites(q.r, out, made.value, d, w, r);
      }
    }
  }

  /**
   Materialization preserves meaning: whatever the stored tables hold, running the prepared query
   under its bindings gives exactly what the outer query gives against a database in which the
   virtual table holds the base query's result.
   */
  lemma MaterializePreservesMeaning(d: Definition, outer: Query, supplied: map<string, Value>,
      tables: map<TableName, Relation>, r: Relation)
    requires ValidDefinition(d)
    requires Materialize(d, outer, supplied).Ok?
    requires EvalQuery(d.base, [], map[], World(tables, supplied)) == Some(r)
    requires QueryOpen(outer, {}, d)
    ensures var p := Materialize(d, outer, supplied).value;
            EvalQuery(p.query, [], map[], World(tables, p.params))
            == EvalQuery(outer, [], map[], Install(World(tables, supplied), d, r))
  {
    var scope: Scope := map[];
    assert scope.Keys == {};
    QueryRewrites(outer, [], scope, d, World(tables, supplied), r);
    assert Erase([], d) == [];
  }

  /******* Each condition of QueryOpen is needed *******/

  function Pick(ctes: Ctes, named: string, c: ColumnRef, f: From): Query {
    Select(ctes, Item(named, Col(c), NoItems), f, None, Plain, None, None)
  }

  function VirtualRef(d: Definition): TableName {
    TableName(None, Some(d.virtualSchema), d.virtualName)
  }

  function OneRow(col: string, v: Value): Relation {
    Relation([col], [[v]])
  }

  lemma FindOnly(c: ColumnRef, b: Binding, col: string, v: Value)
    requires b.cols == [col] && b.vals == [v]
    ensures FindColumn(c, [[b]]) == if Reaches(c, b) && c.name == col then Some(v) else None
  {
    assert ColumnHits(c.name, [col][1..], [v][1..]) == [];
    assert ColumnHits(c.name, [col], [v]) == if col == c.name then [v] else [];
    assert Hits(c, [b][1..]) == [];
    assert FindColumn(c, [[b]][1..]) == None;
  }

  lemma ProjectOnly(items: Items, named: string, c: ColumnRef, frame: Frame, inner: Scope, w: World)
    requires items == Item(named, Col(c), NoItems)
    ensures Project(items, [[frame]], [], inner, w)
            == var v := FindColumn(c, [frame]); if v.None? then None else Some([[v.value]])
  {
    assert Around([frame], []) == [frame];
    assert EvalExpr(items.e, [frame], [], inner, w) == FindColumn(c, [frame]);
    assert EvalItems(items.rest, [frame], [], inner, w) == Some([]);
    var v := FindColumn(c, [frame]);
    if v.Some? {
      assert [v.value] + [] == [v.value];
      assert [[v.value]] + [] == [[v.value]];
    }
    assert Project(items, [[frame]][1..], [], inner, w) == Some([]);
  }

  /** The result of one column picked from a one-row source. */
  lemma PickOne(q: Query, named: string, c: ColumnRef, b: Binding, col: string, v: Value, inner: Scope, scope: Scope,
      w: World)
    requires q.Select? && q == Pick(q.ctes, named, c, q.source)
    requires EvalCtes(q.ctes, [], scope, w) == Some(inner)
    requires EvalFrom(q.source, [], inner, w) == Some([[b]]) && b.cols == [col] && b.vals == [v]
    ensures EvalQuery(q, [], scope, w) == if Reaches(c, b) && c.name == col then Some(OneRow(named, v)) else None
  {
    FindOnly(c, b, col, v);
    assert Singles([[b]]) == [[[b]]] by { assert Singles([[b]][1..]) == []; }
    assert EvalGroups(q, [[b]], [], inner, w) == Some([[[b]]]);
    ProjectOnly(q.items, named, c, [b], inner, w);
    assert Labels(q.items) == [named] by { assert Labels(q.items.rest) == []; }
    assert EvalQuery(q, [], scope, w) == EvalBody(q, [], inner, w);
  }

  lemma BindOne(origin: Option<TableName>, alias: string, cols: seq<string>, v: Value)
    ensures Bind(origin, alias, cols, [[v]]) == [[Binding(origin, alias, cols, [v])]]
  {
  }

  lemma TableOne(t: TableName, names: seq<string>, col: string, v: Value, scope: Scope, w: World)
    requires Resolve(t, scope, w) == Some(OneRow(col, v)) && (names == [] || |names| == 1)
    ensures EvalFrom(Table(t, None, names), [], scope, w)
            == Some([[Binding(Some(t), t.name, if names == [] then [col] else names, [v])]])
  {
    var cols := if names == [] then [col] else names;
    assert Renamed([col], names) == Some(cols) by { assert names + [col][|names|..] == cols; }
    BindOne(Some(t), t.name, cols, v);
  }

  predicate Nothing(f: Facts) {
    f.placeholders == {} && !f.filters && !f.aggregates && f.virtuals == 0
  }

  lemma OnlySource(a: Facts, b: Facts, c: Facts, e: Facts, f: Facts, g: Facts)
    requires Nothing(a) && Nothing(b) && Nothing(e) && Nothing(f) && Nothing(g)
    ensures Both(Both(Both(a, b), Both(c, e)), Both(f, g)) == c
  {
    assert Both(a, b).placeholders == {} && Both(f, g).placeholders == {};
    assert Both(c, e).placeholders == c.placeholders;
  }

  lemma ItemFacts(d: Definition, items: Items)
    requires items.Item? && items.e.Col? && items.rest.NoItems?
    ensures Nothing(ItemsFacts(items, d))
  {
    assert Nothing(ItemsFacts(items.rest, d)) && Nothing(ExprFacts(items.e, d));
  }

  lemma PickFacts(d: Definition, q: Query)
    requires q.Select? && q.items.Item? && q.items.e.Col? && q.items.rest.NoItems?
             && q.filter.None? && q.grouping.Plain? && q.having.None? && Nothing(CtesFacts(q.ctes, d))
    ensures QueryFacts(q, d) == FromFacts(q.source, d)
  {
    ItemFacts(d, q.items);
    OnlySource(CtesFacts(q.ctes, d), ItemsFacts(q.items, d), FromFacts(q.source, d), OptionFacts(q.filter, d),
               GroupingFacts(q.grouping, d), OptionFacts(q.having, d));
  }

  lemma PickRewrites(d: Definition, ctes: Ctes, t: TableName, names: seq<string>, named: string, c: ColumnRef)
    requires MatchesVirtual(t, d) && RwCtes(ctes, d) == ctes
    ensures RwQuery(Pick(ctes, named, c, Table(t, None, names)), d) == Pick(ctes, named, c, Derived(d.base, t.name))
  {
    var items, source := Item(named, Col(c), NoItems), Table(t, None, names);
    assert RwItems(items, d) == items by { assert RwItems(items.rest, d) == NoItems; }
    assert RwFrom(source, d) == Derived(d.base, t.name);
    assert RwOption(None, d) == None && RwGrouping(Plain, d) == Plain;
  }

  lemma GuardsPass(d: Definition, q: Query, rewritten: Query)
    requires QueryFacts(q, d) == Facts({}, false, false, 1) && RwQuery(q, d) == rewritten && d.parameters == {}
    ensures Materialize(d, q, map[]) == Ok(Prepared(rewritten, map[]))
  {
    var none: map<string, Value> := map[];
    assert none.Keys == {};
  }

  /** The outer query, and the query it is prepared into, when the whole of it is one pick. */
  lemma PickMaterializes(d: Definition, ctes: Ctes, t: TableName, names: seq<string>, named: string, c: ColumnRef)
    requires MatchesVirtual(t, d) && d.parameters == {}
    requires CtesFacts(ctes, d) == NOTHING && RwCtes(ctes, d) == ctes
    ensures Materialize(d, Pick(ctes, named, c, Table(t, None, names)), map[])
            == Ok(Prepared(Pick(ctes, named, c, Derived(d.base, t.name)), map[]))
  {
    PickFacts(d, Pick(ctes, named, c, Table(t, None, names)));
    PickRewrites(d, ctes, t, names, named, c);
    GuardsPass(d, Pick(ctes, named, c, Table(t, None, names)), Pick(ctes, named, c, Derived(d.base, t.name)));
  }

  /** schema.name.column is a column of the virtual table and no column of the rewritten query. */
  lemma SchemaQualifiedColumnIsLost(d: Definition, w: World, col: string, v: Value)
    requires Runs(d, w, OneRow(col, v)) && w.params == map[]
    requires d.parameters == {}
    ensures var outer := Pick(NoCtes, col, FullyQualified(d.virtualSchema, d.virtualName, col),
        Table(VirtualRef(d), None, []));
            var p := Materialize(d, outer, map[]);
            && p.Ok? && EvalQuery(p.value.query, [], map[], w) == None
            && EvalQuery(outer, [], map[], Install(w, d, OneRow(col, v))) == Some(OneRow(col, v))
  {
    var c := FullyQualified(d.virtualSchema, d.virtualName, col);
    var t := VirtualRef(d);
    var seen := Install(w, d, OneRow(col, v));
    PickMaterializes(d, NoCtes, t, [], col, c);
    BindOne(None, t.name, [col], v);
    PickOne(Pick(NoCtes, col, c, Derived(d.base, t.name)), col, c, Binding(None, t.name, [col], [v]), col, v, map[],
        map[], w);
    TableOne(t, [], col, v, map[], seen);
    PickOne(Pick(NoCtes, col, c, Table(t, None, [])), col, c, Binding(Some(t), t.name, [col], [v]), col, v, map[],
        map[], seen);
  }

  /** A column alias list on the virtual reference is dropped. */
  lemma ColumnAliasIsLost(d: Definition, w: World, col: string, alias: string, v: Value)
    requires Runs(d, w, OneRow(col, v)) && w.params == map[] && alias != col
    requires d.parameters == {}
    ensures var outer := Pick(NoCtes, alias, Bare(alias), Table(VirtualRef(d), None, [alias]));
            var p := Materialize(d, outer, map[]);
            && p.Ok? && EvalQuery(p.value.query, [], map[], w) == None
            && EvalQuery(outer, [], map[], Install(w, d, OneRow(col, v))) == Some(OneRow(alias, v))
  {
    var c := Bare(alias);
    var t := VirtualRef(d);
    var seen := Install(w, d, OneRow(col, v));
    PickMaterializes(d, NoCtes, t, [alias], alias, c);
    BindOne(None, t.name, [col], v);
    PickOne(Pick(NoCtes, alias, c, Derived(d.base, t.name)), alias, c, Binding(None, t.name, [col], [v]), col, v,
        map[], map[], w);
    TableOne(t, [alias], col, v, map[], seen);
    PickOne(Pick(NoCtes, alias, c, Table(t, None, [alias])), alias, c, Binding(Some(t), t.name, [alias], [v]), alias,
        v, map[], map[], seen);
  }

  /** A pick from the virtual table under WITH names: what it gives before and after the rewrite. */
  lemma PickUnderWith(
      d: Definition, w: World, ctes: Ctes, inner: Scope, t: TableName, col: string, v: Value, captured: Value,
          seen: Value)
    requires Runs(d, w, OneRow(col, v)) && w.params == map[] && d.parameters == {} && MatchesVirtual(t, d)
    requires CtesFacts(ctes, d) == NOTHING && RwCtes(ctes, d) == ctes
    requires EvalCtes(ctes, [], map[], w) == EvalCtes(ctes, [], map[], Install(w, d, OneRow(col, v))) == Some(inner)
    requires EvalQuery(d.base, [], inner, w) == Some(OneRow(col, captured))
    requires Resolve(t, inner, Install(w, d, OneRow(col, v))) == Some(OneRow(col, seen))
    ensures var outer := Pick(ctes, col, Bare(col), Table(t, None, []));
            var p := Materialize(d, outer, map[]);
            && p.Ok?
            && EvalQuery(p.value.query, [], map[], w) == Some(OneRow(col, captured))
            && EvalQuery(outer, [], map[], Install(w, d, OneRow(col, v))) == Some(OneRow(col, seen))
  {
    var world := Install(w, d, OneRow(col, v));
    var bound := Binding(None, t.name, [col], [captured]);
    PickMaterializes(d, ctes, t, [], col, Bare(col));
    BindOne(None, t.name, [col], captured);
    PickOne(Pick(ctes, col, Bare(col), Derived(d.base, t.name)), col, Bare(col), bound, col, captured, inner, map[], w);
    TableOne(t, [], col, seen, inner, world);
    PickOne(Pick(ctes, col, Bare(col), Table(t, None, [])), col, Bare(col), Binding(Some(t), t.name, [col], [seen]),
            col, seen, inner, map[], world);
  }

  function PickFrom(t: TableName, col: string): Query {
    Pick(NoCtes, col, Bare(col), Table(t, None, []))
  }

  lemma PickFromGives(t: TableName, col: string, v: Value, scope: Scope, w: World)
    requires Resolve(t, scope, w) == Some(OneRow(col, v))
    ensures EvalQuery(PickFrom(t, col), [], scope, w) == Some(OneRow(col, v))
  {
    TableOne(t, [], col, v, scope, w);
    PickOne(PickFrom(t, col), col, Bare(col), Binding(Some(t), t.name, [col], [v]), col, v, scope, scope, w);
  }

  function Local(name: string): TableName {
    TableName(None, None, name)
  }

  /** WITH name AS (a pick from another stored table). */
  function With(name: string, t: TableName, col: string): Ctes {
    Cte(name, PickFrom(t, col), NoCtes)
  }

  lemma WithGives(name: string, t: TableName, col: string, u: Value, w: World)
    requires Resolve(t, map[], w) == Some(OneRow(col, u))
    ensures EvalCtes(With(name, t, col), [], map[], w) == Some(map[name := OneRow(col, u)])
  {
    var none: Scope := map[];
    PickFromGives(t, col, u, none, w);
    assert none[name := OneRow(col, u)] == map[name := OneRow(col, u)];
    assert EvalCtes(NoCtes, [], none[name := OneRow(col, u)], w) == Some(none[name := OneRow(col, u)]);
  }

  lemma PickFromStays(t: TableName, col: string, d: Definition)
    requires !MatchesVirtual(t, d)
    ensures RwQuery(PickFrom(t, col), d) == PickFrom(t, col)
  {
    var items, source := Item(col, Col(Bare(col)), NoItems), Table(t, None, []);
    assert RwItems(items, d) == items by { assert RwItems(items.rest, d) == NoItems; }
    assert RwFrom(source, d) == source;
    assert RwOption(None, d) == None && RwGrouping(Plain, d) == Plain && RwCtes(NoCtes, d) == NoCtes;
  }

  lemma CteFacts(ctes: Ctes, d: Definition)
    requires ctes.Cte? && ctes.rest.NoCtes? && Nothing(QueryFacts(ctes.body, d))
    ensures CtesFacts(ctes, d) == NOTHING
  {
    assert Nothing(CtesFacts(ctes.rest, d));
  }

  lemma CteStays(ctes: Ctes, d: Definition)
    requires ctes.Cte? && ctes.rest.NoCtes? && RwQuery(ctes.body, d) == ctes.body
    ensures RwCtes(ctes, d) == ctes && Names(ctes) == {ctes.name}
  {
    assert RwCtes(ctes.rest, d) == ctes.rest && Names(ctes.rest) == {};
  }

  lemma WithFacts(name: string, t: TableName, col: string, d: Definition)
    requires !MatchesVirtual(t, d)
    ensures CtesFacts(With(name, t, col), d) == NOTHING && RwCtes(With(name, t, col), d) == With(name, t, col)
    ensures Names(With(name, t, col)) == {name}
  {
    PickFacts(d, PickFrom(t, col));
    PickFromStays(t, col, d);
    CteFacts(With(name, t, col), d);
    CteStays(With(name, t, col), d);
  }

  lemma PickFromReads(name: string, col: string)
    ensures QueryFree(PickFrom(Local(name), col)) == {name}
  {
    var q := PickFrom(Local(name), col);
    assert ItemsFree(q.items) == {} by { assert ItemsFree(q.items.rest) == {}; }
  }

  /** A base query over the table `read`, and an outer WITH name defined by a pick from another table. */
  predicate Setting(d: Definition, w: World, read: string, other: TableName, col: string, v: Value, u: Value) {
    && ValidDefinition(d) && d.base == PickFrom(Local(read), col) && d.parameters == {} && w.params == map[]
    && other.schema.Some? && !MatchesVirtual(other, d)
    && Local(read) in w.tables && w.tables[Local(read)] == OneRow(col, v)
    && other in w.tables && w.tables[other] == OneRow(col, u)
  }

  lemma SettingUnderWith(
      d: Definition, w: World, read: string, other: TableName, col: string, v: Value, u: Value, name: string,
          t: TableName)
    requires Setting(d, w, read, other, col, v, u) && MatchesVirtual(t, d)
    ensures var ctes := With(name, other, col);
            var outer := Pick(ctes, col, Bare(col), Table(t, None, []));
            var p := Materialize(d, outer, map[]);
            && p.Ok?
            && EvalQuery(d.base, [], map[], w) == Some(OneRow(col, v))
            && EvalQuery(p.value.query, [], map[], w) == Some(OneRow(col, if name == read then u else v))
            && EvalQuery(outer, [], map[], Install(w, d, OneRow(col, v)))
               == Some(OneRow(col, if t == Local(name) then u else v))
  {
    var world, inner: Scope := Install(w, d, OneRow(col, v)), map[name := OneRow(col, u)];
    MatchesExactly(t, d);
    MatchesExactly(other, d);
    PickFromGives(Local(read), col, v, map[], w);
    PickFromGives(Local(read), col, if name == read then u else v, inner, w);
    WithFacts(name, other, col, d);
    WithGives(name, other, col, u, w);
    WithGives(name, other, col, u, world);
    PickUnderWith(d, w, With(name, other, col), inner, t, col, v, if name == read then u else v,
                  if t == Local(name) then u else v);
  }

  /** An outer WITH name captures a table the base query reads: the pick keeps its meaning if and only if
      the base query reads no such name. */
  lemma OuterWithCaptures(
      d: Definition, w: World, read: string, other: TableName, col: string, v: Value, u: Value, name: string)
    requires Setting(d, w, read, other, col, v, u) && u != v
    ensures var ctes := With(name, other, col);
            var outer := Pick(ctes, col, Bare(col), Table(VirtualRef(d), None, []));
            var p := Materialize(d, outer, map[]);
            && p.Ok? && EvalQuery(d.base, [], map[], w) == Some(OneRow(col, v))
            && (EvalQuery(p.value.query, [], map[], w) == EvalQuery(outer, [], map[], Install(w, d, OneRow(col, v)))
                <==> QueryFree(d.base) !! Names(ctes))
  {
    SettingUnderWith(d, w, read, other, col, v, u, name, VirtualRef(d));
    PickFromReads(read, col);
    WithFacts(name, other, col, d);
    assert OneRow(col, u).rows[0] != OneRow(col, v).rows[0];
  }

  /** A WITH name equal to the virtual name: the guards count the reference as one to the virtual table,
      and the base query replaces what the WITH defined. The meaning is kept if and only if the names
      differ. */
  lemma VirtualNameIsHidden(
      d: Definition, w: World, read: string, other: TableName, col: string, v: Value, u: Value, name: string)
    requires Setting(d, w, read, other, col, v, u) && u != v && name != read
    ensures var outer := Pick(With(name, other, col), col, Bare(col), Table(Local(d.virtualName), None, []));
            var p := Materialize(d, outer, map[]);
            && p.Ok? && EvalQuery(p.value.query, [], map[], w) == Some(OneRow(col, v))
            && (EvalQuery(p.value.query, [], map[], w) == EvalQuery(outer, [], map[], Install(w, d, OneRow(col, v)))
                <==> name != d.virtualName)
  {
    SettingUnderWith(d, w, read, other, col, v, u, name, Local(d.virtualName));
    assert OneRow(col, u).rows[0] != OneRow(col, v).rows[0];
  }
}
