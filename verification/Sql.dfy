/**
 A small SQL: queries as a syntax tree and what they evaluate to.

 Relations are sequences of rows, so equal results agree on order and on duplicates too. An
 evaluation that PostgreSQL would reject (unknown table, unresolved or ambiguous column, missing
 parameter) is None, and None is strict: it makes the whole query None.

 Truth is two-valued: AND and NOT read a null as not true, where SQL answers null. Except removes one
 copy per match, which is EXCEPT ALL. Nothing about the rewrite turns on either.
 */
module Sql {
  import opened Wrappers

  /******* Syntax *******/

  datatype Value = Null | Bool(b: bool) | Num(n: int) | Text(s: string)

  datatype TableName = TableName(catalog: Option<string>, schema: Option<string>, name: string)

  datatype ColumnRef =
    | Bare(name: string)
    | Qualified(table: string, name: string)
    | FullyQualified(schema: string, table: string, name: string)

  datatype Operator = Plus | Eq | Less | And | Not

  datatype AggregateFunction = CountRows | Sum | Max

  datatype Expr =
    | Lit(v: Value)
    | Placeholder(param: string)
    | Col(c: ColumnRef)
    | Apply(op: Operator, l: Expr, r: Expr)
    | Aggregate(f: AggregateFunction, arg: Expr)
    | Exists(sub: Query)
    | Scalar(sub: Query)

  datatype Items = NoItems | Item(name: string, e: Expr, rest: Items)

  datatype From =
    | Table(t: TableName, alias: Option<string>, columnAliases: seq<string>)
    | Derived(sub: Query, name: string)
    | Join(l: From, r: From, on: Expr)

  datatype Ctes = NoCtes | Cte(name: string, body: Query, rest: Ctes)

  // Grouped(NoItems) is the implicit single group of an aggregate query without GROUP BY.
  datatype Grouping = Plain | Grouped(keys: Items)

  datatype SetOperator = UnionAll | Except

  datatype Query =
    | Select(ctes: Ctes, items: Items, source: From, filter: Option<Expr>, grouping: Grouping,
             having: Option<Expr>, limit: Option<nat>)
    | SetOperation(ctes: Ctes, op: SetOperator, l: Query, r: Query)

  /******* Meaning *******/

  datatype Relation = Relation(cols: seq<string>, rows: seq<seq<Value>>)

  /** One table in scope while a row is examined. origin is the stored name a fully qualified column
      can reach it by; a table given an alias, a derived table and a subquery have none. */
  datatype Binding = Binding(origin: Option<TableName>, alias: string, cols: seq<string>, vals: seq<Value>)

  type Frame = seq<Binding>
  type Group = seq<Frame>
  type Scope = map<string, Relation>

  datatype World = World(tables: map<TableName, Relation>, params: map<string, Value>)

  predicate Reaches(c: ColumnRef, b: Binding) {
    match c
    case Bare(_) => true
    case Qualified(t, _) => b.alias == t
    case FullyQualified(s, t, _) =>
      b.origin.Some? && b.origin.value.schema == Some(s) && b.origin.value.name == t
  }

  function ColumnHits(n: string, cols: seq<string>, vals: seq<Value>): seq<Value> {
    if cols == [] || vals == [] then []
    else (if cols[0] == n then [vals[0]] else []) + ColumnHits(n, cols[1..], vals[1..])
  }

  function Hits(c: ColumnRef, f: Frame): seq<Value> {
    if f == [] then []
    else (if Reaches(c, f[0]) then ColumnHits(c.name, f[0].cols, f[0].vals) else []) + Hits(c, f[1..])
  }

  /** Innermost frame first; an ambiguous name is an error, a missing one is looked up further out. */
  function FindColumn(c: ColumnRef, frames: seq<Frame>): Option<Value> {
    if frames == [] then None
    else
      var hits := Hits(c, frames[0]);
      if |hits| == 1 then Some(hits[0])
      else if |hits| > 1 then None
      else FindColumn(c, frames[1..])
  }

  function Truth(v: Value): bool {
    v == Bool(true)
  }

  function ApplyOperator(op: Operator, l: Value, r: Value): Value {
    if op == And then Bool(Truth(l) && Truth(r))
    else if op == Not then Bool(!Truth(l))
    else if l.Null? || r.Null? then Null
    else if op == Eq then Bool(l == r)
    else if l.Num? && r.Num? then (if op == Plus then Num(l.n + r.n) else Bool(l.n < r.n))
    else Null
  }

  function Fold(f: AggregateFunction, vals: seq<Value>): Value {
    if vals == [] then (if f == CountRows then Num(0) else Null)
    else
      var rest := Fold(f, vals[1..]);
      match f
      case CountRows => if rest.Num? then Num(rest.n + 1) else Null
      case Sum => if !vals[0].Num? then rest else if rest.Num? then Num(vals[0].n + rest.n) else vals[0]
      case Max => if !vals[0].Num? then rest
      else if rest.Num? && rest.n > vals[0].n then rest else vals[0]
  }

  /** What a table name denotes: a WITH name hides a stored table of the same unqualified name. */
  function Resolve(t: TableName, scope: Scope, w: World): Option<Relation> {
    if t.catalog.None? && t.schema.None? && t.name in scope then Some(scope[t.name])
    else if t in w.tables then Some(w.tables[t])
    else None
  }

  function Renamed(cols: seq<string>, names: seq<string>): Option<seq<string>> {
    if |names| > |cols| then None else Some(names + cols[|names|..])
  }

  function Bind(origin: Option<TableName>, alias: string, cols: seq<string>, rows: seq<seq<Value>>): seq<Frame> {
    if rows == [] then []
    else [[Binding(origin, alias, cols, rows[0])]] + Bind(origin, alias, cols, rows[1..])
  }

  function Product(ls: seq<Frame>, rs: seq<Frame>): seq<Frame> {
    if ls == [] then [] else Beside(ls[0], rs) + Product(ls[1..], rs)
  }

  function Beside(l: Frame, rs: seq<Frame>): seq<Frame> {
    if rs == [] then [] else [l + rs[0]] + Beside(l, rs[1..])
  }

  function Singles(rows: seq<Frame>): (r: seq<Group>)
    ensures |r| == |rows|
  {
    if rows == [] then [] else [[rows[0]]] + Singles(rows[1..])
  }

  function Flatten(gs: seq<Group>): seq<Frame> {
    if gs == [] then [] else gs[0] + Flatten(gs[1..])
  }

  /** The rows whose key is k, and the rows whose key is not, in order. */
  function WithKey(k: seq<Value>, keys: seq<seq<Value>>, rows: seq<Frame>): Group
    requires |keys| == |rows|
  {
    if rows == [] then []
    else (if keys[0] == k then [rows[0]] else []) + WithKey(k, keys[1..], rows[1..])
  }

  function KeyPositions(k: seq<Value>, keys: seq<seq<Value>>): (r: seq<seq<Value>>)
    ensures |r| <= |keys|
  {
    if keys == [] then [] else (if keys[0] == k then [] else [keys[0]]) + KeyPositions(k, keys[1..])
  }

  function WithoutKey(k: seq<Value>, keys: seq<seq<Value>>, rows: seq<Frame>): (r: Group)
    requires |keys| == |rows|
    ensures |r| == |KeyPositions(k, keys)|
  {
    if rows == [] then []
    else (if keys[0] == k then [] else [rows[0]]) + WithoutKey(k, keys[1..], rows[1..])
  }

  /** Groups in order of first appearance. */
  function Partition(keys: seq<seq<Value>>, rows: seq<Frame>): seq<Group>
    requires |keys| == |rows|
    decreases |rows|
  {
    if rows == [] then []
    else
      [[rows[0]] + WithKey(keys[0], keys[1..], rows[1..])]
      + Partition(KeyPositions(keys[0], keys[1..]), WithoutKey(keys[0], keys[1..], rows[1..]))
  }

  function Labels(items: Items): seq<string> {
    match items
    case NoItems => []
    case Item(n, _, rest) => [n] + Labels(rest)
  }

  function Limited(rows: seq<seq<Value>>, limit: Option<nat>): seq<seq<Value>> {
    if limit.Some? && limit.value < |rows| then rows[..limit.value] else rows
  }

  function RemoveOne(x: seq<Value>, rows: seq<seq<Value>>): seq<seq<Value>> {
    if rows == [] then [] else if rows[0] == x then rows[1..] else [rows[0]] + RemoveOne(x, rows[1..])
  }

  function RemoveAll(rows: seq<seq<Value>>, gone: seq<seq<Value>>): seq<seq<Value>>
    decreases |gone|
  {
    if gone == [] then rows else RemoveAll(RemoveOne(gone[0], rows), gone[1..])
  }

  function Combine(op: SetOperator, l: Relation, r: Relation): Option<Relation> {
    if |l.cols| != |r.cols| then None
    else Some(Relation(l.cols, if op == UnionAll then l.rows + r.rows else RemoveAll(l.rows, r.rows)))
  }

  /** The frames a subquery sees: the row being examined, then the enclosing ones. */
  function Around(grp: Group, out: seq<Frame>): seq<Frame> {
    (if grp == [] then [] else [grp[0]]) + out
  }

  function EvalExpr(e: Expr, grp: Group, out: seq<Frame>, scope: Scope, w: World): Option<Value>
    decreases e, 0, 0
  {
    match e
    case Lit(v) => Some(v)
    case Placeholder(p) => if p in w.params then Some(w.params[p]) else None
    case Col(c) => FindColumn(c, Around(grp, out))
    case Apply(op, l, r) =>
      var lv :- EvalExpr(l, grp, out, scope, w);
      var rv :- EvalExpr(r, grp, out, scope, w);
      Some(ApplyOperator(op, lv, rv))
    case Aggregate(f, arg) =>
      var vals :- EvalEach(arg, grp, out, scope, w);
      Some(Fold(f, vals))
    case Exists(sub) =>
      var rel :- EvalQuery(sub, Around(grp, out), scope, w);
      Some(Bool(rel.rows != []))
    case Scalar(sub) =>
      var rel :- EvalQuery(sub, Around(grp, out), scope, w);
      if |rel.cols| != 1 || |rel.rows| > 1 then None
      else if rel.rows == [] then Some(Null)
      else if rel.rows[0] == [] then None
      else Some(rel.rows[0][0])
  }

  function EvalEach(e: Expr, rows: Group, out: seq<Frame>, scope: Scope, w: World): Option<seq<Value>>
    decreases e, 1, |rows|
  {
    if rows == [] then Some([])
    else
      var v :- EvalExpr(e, [rows[0]], out, scope, w);
      var rest :- EvalEach(e, rows[1..], out, scope, w);
      Some([v] + rest)
  }

  function EvalItems(items: Items, grp: Group, out: seq<Frame>, scope: Scope, w: World): Option<seq<Value>>
    decreases items, 0, 0
  {
    match items
    case NoItems => Some([])
    case Item(_, e, rest) =>
      var v :- EvalExpr(e, grp, out, scope, w);
      var vs :- EvalItems(rest, grp, out, scope, w);
      Some([v] + vs)
  }

  function Keep(e: Expr, gs: seq<Group>, out: seq<Frame>, scope: Scope, w: World): Option<seq<Group>>
    decreases e, 1, |gs|
  {
    if gs == [] then Some([])
    else
      var v :- EvalExpr(e, gs[0], out, scope, w);
      var rest :- Keep(e, gs[1..], out, scope, w);
      Some(if Truth(v) then [gs[0]] + rest else rest)
  }

  function Project(items: Items, gs: seq<Group>, out: seq<Frame>, scope: Scope, w: World)
    : (r: Option<seq<seq<Value>>>)
    ensures r.Some? ==> |r.value| == |gs|
    decreases items, 1, |gs|
  {
    if gs == [] then Some([])
    else
      var v :- EvalItems(items, gs[0], out, scope, w);
      var rest :- Project(items, gs[1..], out, scope, w);
      Some([v] + rest)
  }

  function EvalFrom(f: From, out: seq<Frame>, scope: Scope, w: World): Option<seq<Frame>>
    decreases f, 0, 0
  {
    match f
    case Table(t, alias, columnAliases) =>
      var rel :- Resolve(t, scope, w);
      var cols :- Renamed(rel.cols, columnAliases);
      Some(if alias.Some? then Bind(None, alias.value, cols, rel.rows)
           else Bind(Some(t), t.name, cols, rel.rows))
    case Derived(sub, name) =>
      var rel :- EvalQuery(sub, out, scope, w);
      Some(Bind(None, name, rel.cols, rel.rows))
    case Join(l, r, on) =>
      var ls :- EvalFrom(l, out, scope, w);
      var rs :- EvalFrom(r, out, scope, w);
      var kept :- Keep(on, Singles(Product(ls, rs)), out, scope, w);
      Some(Flatten(kept))
  }

  function EvalCtes(ctes: Ctes, out: seq<Frame>, scope: Scope, w: World): (r: Option<Scope>)
    ensures r.Some? ==> r.value.Keys == scope.Keys + Names(ctes)
    decreases ctes, 0, 0
  {
    match ctes
    case NoCtes => Some(scope)
    case Cte(name, body, rest) =>
      var rel :- EvalQuery(body, out, scope, w);
      EvalCtes(rest, out, scope[name := rel], w)
  }

  function Names(ctes: Ctes): set<string> {
    match ctes
    case NoCtes => {}
    case Cte(name, _, rest) => {name} + Names(rest)
  }

  function EvalFilter(filter: Option<Expr>, gs: seq<Group>, out: seq<Frame>, scope: Scope, w: World)
    : Option<seq<Group>>
    decreases filter, 0, 0
  {
    if filter.None? then Some(gs) else Keep(filter.value, gs, out, scope, w)
  }

  function EvalGrouping(grouping: Grouping, gs: seq<Group>, out: seq<Frame>, scope: Scope, w: World)
    : Option<seq<Group>>
    decreases grouping, 0, 0
  {
    match grouping
    case Plain => Some(gs)
    case Grouped(keys) =>
      var rows := Flatten(gs);
      if keys == NoItems then Some([rows])
      else
        var ks :- Project(keys, Singles(rows), out, scope, w);
        Some(Partition(ks, rows))
  }

  /** WHERE, GROUP BY and HAVING. */
  function EvalGroups(q: Query, rows: seq<Frame>, out: seq<Frame>, inner: Scope, w: World): Option<seq<Group>>
    requires q.Select?
    decreases q, 0, 0
  {
    var kept :- EvalFilter(q.filter, Singles(rows), out, inner, w);
    var groups :- EvalGrouping(q.grouping, kept, out, inner, w);
    EvalFilter(q.having, groups, out, inner, w)
  }

  function EvalBody(q: Query, out: seq<Frame>, inner: Scope, w: World): Option<Relation>
    requires q.Select?
    decreases q, 1, 0
  {
    var rows :- EvalFrom(q.source, out, inner, w);
    var groups :- EvalGroups(q, rows, out, inner, w);
    var result :- Project(q.items, groups, out, inner, w);
    Some(Relation(Labels(q.items), Limited(result, q.limit)))
  }

  function EvalQuery(q: Query, out: seq<Frame>, scope: Scope, w: World): Option<Relation>
    decreases q, 2, 0
  {
    var inner :- EvalCtes(q.ctes, out, scope, w);
    if q.Select? then EvalBody(q, out, inner, w)
    else
      var lr :- EvalQuery(q.l, out, inner, w);
      var rr :- EvalQuery(q.r, out, inner, w);
      Combine(q.op, lr, rr)
  }
}
