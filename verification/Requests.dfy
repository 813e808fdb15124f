/**
 The browser console's requests: an operation is current until another begins under its key or its
 context is invalidated. Responses of obsolete operations are rejected.
 */
module Requests {
  type Key = string

  datatype Scope = Session | Tenant | Source | Query

  function Level(scope: Scope): (level: nat)
    ensures level < LEVELS
  {
    match scope
    case Session => 0
    case Tenant => 1
    case Source => 2
    case Query => 3
  }

  const LEVELS := 4

  /******* Operations in order of creation *******/

  datatype Op = Op(key: Key, level: nat, snapshot: seq<nat>, aborted: bool)

  /** Operations are named by their position. */
  datatype State = State(generations: seq<nat>, ops: seq<Op>, latest: map<Key, nat>)

  datatype Event = BeginEvent(key: Key, scope: Scope) | InvalidateEvent(scope: Scope)

  const START := State([0, 0, 0, 0], [], map[])

  predicate IsLatest(s: State, i: nat) {
    i < |s.ops| && s.ops[i].key in s.latest && s.latest[s.ops[i].key] == i
  }

  function Advanced(generations: seq<nat>, level: nat): seq<nat> {
    seq(|generations|, i requires 0 <= i < |generations| => if level <= i then generations[i] + 1 else generations[i])
  }

  function Aborting(s: State, i: nat, e: Event): bool
    requires i < |s.ops|
  {
    IsLatest(s, i)
    && match e
       case BeginEvent(key, _) => s.ops[i].key == key
       case InvalidateEvent(scope) => Level(scope) <= s.ops[i].level
  }

  function Aborted(s: State, e: Event): seq<Op> {
    seq(|s.ops|, i requires 0 <= i < |s.ops| => s.ops[i].(aborted := s.ops[i].aborted || Aborting(s, i, e)))
  }

  function Step(s: State, e: Event): State {
    match e
    case BeginEvent(key, scope) =>
      var n := if Level(scope) + 1 <= |s.generations| then Level(scope) + 1 else |s.generations|;
      State(s.generations, Aborted(s, e) + [Op(key, Level(scope), s.generations[..n], false)], s.latest[key := |s.ops|])
    case InvalidateEvent(scope) =>
      State(Advanced(s.generations, Level(scope)), Aborted(s, e), s.latest)
  }

  function Run(events: seq<Event>): State {
    if events == [] then START else Step(Run(events[..|events| - 1]), events[|events| - 1])
  }

  predicate GenerationsMatch(s: State, op: Op) {
    |op.snapshot| <= |s.generations| && op.snapshot == s.generations[..|op.snapshot|]
  }

  /** The test before and after every response. */
  predicate Current(s: State, i: nat) {
    IsLatest(s, i) && !s.ops[i].aborted && GenerationsMatch(s, s.ops[i])
  }

  /******* What current means *******/

  predicate Kept(s: State) {
    && |s.generations| == LEVELS
    && (forall k <- s.latest :: s.latest[k] < |s.ops| && s.ops[s.latest[k]].key == k)
    && (forall i :: 0 <= i < |s.ops| ==> s.ops[i].level < LEVELS && |s.ops[i].snapshot| == s.ops[i].level + 1)
    && (forall i, j :: 0 <= i < |s.ops| && 0 <= j <= s.ops[i].level ==> s.ops[i].snapshot[j] <= s.generations[j])
  }

  /** The abort flag says what the latest-and-generations test says. */
  predicate FlagAgrees(s: State) {
    forall i :: 0 <= i < |s.ops| ==> (s.ops[i].aborted <==> !(IsLatest(s, i) && GenerationsMatch(s, s.ops[i])))
  }

  lemma AdvancedMismatch(s: State, op: Op, level: nat)
    requires |s.generations| == LEVELS && op.level < LEVELS && |op.snapshot| == op.level + 1
    requires forall j :: 0 <= j <= op.level ==> op.snapshot[j] <= s.generations[j]
    ensures GenerationsMatch(s.(generations := Advanced(s.generations, level)), op)
            <==> GenerationsMatch(s, op) && op.level < level
  {
    var g := Advanced(s.generations, level);
    if level <= op.level {
      assert g[..op.level + 1][level] == s.generations[level] + 1;
    } else {
      assert g[..op.level + 1] == s.generations[..op.level + 1];
    }
  }

  lemma StepKeeps(s: State, e: Event)
    requires Kept(s)
    ensures Kept(Step(s, e))
    ensures FlagAgrees(s) ==> FlagAgrees(Step(s, e))
  {
    var t := Step(s, e);
    if FlagAgrees(s) {
      forall i | 0 <= i < |t.ops| ensures t.ops[i].aborted <==> !(IsLatest(t, i) && GenerationsMatch(t, t.ops[i])) {
        if i < |s.ops| {
          assert s.ops[i].aborted <==> !(IsLatest(s, i) && GenerationsMatch(s, s.ops[i]));
          if e.InvalidateEvent? {
            AdvancedMismatch(s, s.ops[i], Level(e.scope));
            assert GenerationsMatch(t, t.ops[i]) <==> GenerationsMatch(s, s.ops[i]) && s.ops[i].level < Level(e.scope);
          }
        }
      }
    }
  }

  /** In every reachable state the abort flag and the test agree. */
  lemma {:induction false} FlagAlwaysAgrees(events: seq<Event>)
    ensures Kept(Run(events)) && FlagAgrees(Run(events))
  {
    if events != [] {
      FlagAlwaysAgrees(events[..|events| - 1]);
      StepKeeps(Run(events[..|events| - 1]), events[|events| - 1]);
    }
  }

  /** The position of the operation the next begin creates. */
  function Begins(events: seq<Event>): nat {
    if events == [] then 0
    else Begins(events[..|events| - 1]) + if events[|events| - 1].BeginEvent? then 1 else 0
  }

  /** A session holds tenants, a tenant sources and a source queries. */
  predicate Encloses(outer: Scope, inner: Scope) {
    match outer
    case Session => true
    case Tenant => inner != Session
    case Source => inner == Source || inner == Query
    case Query => inner == Query
  }

  lemma LevelsEnclose(outer: Scope, inner: Scope)
    ensures Level(outer) <= Level(inner) <==> Encloses(outer, inner)
  {
  }

  /** A later event that makes the operation begun by `begun` obsolete. */
  predicate Ends(e: Event, begun: Event)
    requires begun.BeginEvent?
  {
    match e
    case BeginEvent(key, _) => key == begun.key
    case InvalidateEvent(scope) => Encloses(scope, begun.scope)
  }

  lemma {:induction false} OpsAreBegins(events: seq<Event>)
    ensures |Run(events).ops| == Begins(events)
  {
    if events != [] {
      OpsAreBegins(events[..|events| - 1]);
    }
  }

  lemma StepOvertakes(s: State, e: Event, i: nat)
    requires Kept(s) && i < |s.ops|
    ensures var t := Step(s, e);
            && i < |t.ops| && t.ops[i].key == s.ops[i].key && t.ops[i].level == s.ops[i].level
            && (Current(t, i) <==> Current(s, i) && match e
                                                    case BeginEvent(key, _) => key != s.ops[i].key
                                                    case InvalidateEvent(scope) => s.ops[i].level < Level(scope))
  {
  }

  lemma BornCurrent(s: State, e: Event)
    requires Kept(s) && e.BeginEvent?
    ensures var t, i := Step(s, e), |s.ops|;
            && |t.ops| == i + 1 && t.ops[i].key == e.key && t.ops[i].level == Level(e.scope) && Current(t, i)
  {
  }

  /** No later event made the operation begun at p obsolete. */
  predicate NotOvertaken(events: seq<Event>, p: nat)
    requires p < |events| && events[p].BeginEvent?
  {
    forall q :: p < q < |events| ==> !Ends(events[q], events[p])
  }

  lemma OneMoreEvent(events: seq<Event>, p: nat)
    requires p < |events| - 1 && events[p].BeginEvent?
    ensures var n := |events| - 1;
            && events[..n][p] == events[p] && events[..n][..p] == events[..p]
            && (NotOvertaken(events, p) <==> NotOvertaken(events[..n], p) && !Ends(events[n], events[p]))
  {
  }

  /** The operation begun by this event exists at i and is current exactly if `current`. */
  predicate BegunAt(s: State, i: nat, begun: Event, current: bool)
    requires begun.BeginEvent?
  {
    i < |s.ops| && s.ops[i].key == begun.key && s.ops[i].level == Level(begun.scope) && (Current(s, i) <==> current)
  }

  lemma StepOvertakesBegun(s: State, e: Event, i: nat, begun: Event, current: bool)
    requires Kept(s) && begun.BeginEvent? && BegunAt(s, i, begun, current)
    ensures BegunAt(Step(s, e), i, begun, current && !Ends(e, begun))
  {
    StepOvertakes(s, e, i);
    if e.InvalidateEvent? {
      LevelsEnclose(e.scope, begun.scope);
    }
  }

  /** An operation is current exactly while no later begin used its key and no later invalidation hit its
      level or an outer one; over every sequence of events. */
  lemma {:induction false} CurrentMeansNotOvertaken(events: seq<Event>, p: nat)
    requires p < |events| && events[p].BeginEvent?
    ensures BegunAt(Run(events), Begins(events[..p]), events[p], NotOvertaken(events, p))
  {
    var n := |events| - 1;
    var s, e := Run(events[..n]), events[n];
    FlagAlwaysAgrees(events[..n]);
    if p < n {
      OneMoreEvent(events, p);
      CurrentMeansNotOvertaken(events[..n], p);
      StepOvertakesBegun(s, e, Begins(events[..p]), events[p], NotOvertaken(events[..n], p));
    } else {
      OpsAreBegins(events[..n]);
      BornCurrent(s, e);
    }
  }

  /** At most one operation per key is current. */
  lemma OneCurrentPerKey(events: seq<Event>, i: nat, j: nat)
    requires Current(Run(events), i) && Current(Run(events), j)
    requires Run(events).ops[i].key == Run(events).ops[j].key
    ensures i == j
  {
  }

  /******* The object *******/

  class Operation {
    const key: Key
    const level: nat
    const snapshot: seq<nat>
    ghost const index: nat
    var aborted: bool

    constructor (key: Key, level: nat, snapshot: seq<nat>, ghost index: nat)
      ensures this.key == key && this.level == level && this.snapshot == snapshot && this.index == index && !aborted
    {
      this.key, this.level, this.snapshot, this.index := key, level, snapshot, index;
      aborted := false;
    }

    function Model(): Op
      reads this
    {
      Op(key, level, snapshot, aborted)
    }

    method Cancel()
      modifies this
      ensures aborted
    {
      aborted := true;
    }
  }

  class SQLVerityRequests {
    const generations: array<nat>
    var latest: map<Key, Operation>
    /** Every operation ever begun. */
    ghost var ops: seq<Operation>

    ghost predicate Valid()
      reads this
    {
      && generations.Length == LEVELS
      && (forall i :: 0 <= i < |ops| ==>
                        ops[i].index == i && ops[i].level < LEVELS && |ops[i].snapshot| == ops[i].level + 1)
      && (forall k <- latest :: latest[k] in ops && latest[k].key == k)
    }

    ghost function Model(): State
      reads this, generations, ops
    {
      State(generations[..], seq(|ops|, i requires 0 <= i < |ops| reads this, ops => ops[i].Model()),
            map k <- latest :: latest[k].index)
    }

    constructor ()
      ensures Valid() && fresh(generations) && Model() == START
    {
      generations := new nat[LEVELS](_ => 0);
      latest := map[];
      ops := [];
      new;
      assert generations[..] == [0, 0, 0, 0];
    }

    method Advance(level: nat)
      requires generations.Length == LEVELS && level < LEVELS
      modifies generations
      ensures generations[..] == Advanced(old(generations[..]), level)
    {
      for i := level to generations.Length
        invariant forall j :: 0 <= j < LEVELS ==>
                                generations[j] == old(generations[j]) + if level <= j < i then 1 else 0
      {
        generations[i] := generations[i] + 1;
      }
    }

    /** Cancels the latest operations at this level or an inner one. */
    method CancelFrom(level: nat)
      requires Valid()
      modifies ops
      ensures forall op <- ops ::
                op.aborted == (old(op.aborted) || (op.key in latest && latest[op.key] == op && level <= op.level))
    {
      var keys := latest.Keys;
      while keys != {}
        invariant keys <= latest.Keys
        invariant forall op <- ops ::
                    op.aborted == (old(op.aborted) || (op.key in latest && op.key !in keys
                                                       && latest[op.key] == op && level <= op.level))
        decreases |keys|
      {
        var k :| k in keys;
        keys := keys - {k};
        if latest[k].level >= level {
          latest[k].Cancel();
        }
      }
    }

    ghost predicate LatestAt(i: nat)
      requires i < |ops|
      reads this
    {
      ops[i].key in latest && latest[ops[i].key] == ops[i]
    }

    lemma LatestIsModelled(i: nat)
      requires Valid() && i < |ops|
      ensures LatestAt(i) <==> IsLatest(Model(), i)
    {
    }

    method Invalidate(scope: Scope)
      requires Valid()
      modifies generations, ops
      ensures Valid() && ops == old(ops)
      ensures Model() == Step(old(Model()), InvalidateEvent(scope))
    {
      ghost var before := Model();
      forall i | 0 <= i < |ops| ensures LatestAt(i) <==> IsLatest(before, i) {
        LatestIsModelled(i);
      }
      Advance(Level(scope));
      CancelFrom(Level(scope));
      forall i | 0 <= i < |ops| ensures Model().ops[i] == Aborted(before, InvalidateEvent(scope))[i] {
        assert ops[i] in ops;
      }
      assert Model().ops == Aborted(before, InvalidateEvent(scope));
    }

    method CancelLatest(key: Key)
      requires Valid()
      modifies ops
      ensures Model() == old(Model()).(ops := Aborted(old(Model()), BeginEvent(key, Session)))
    {
      ghost var before := Model();
      forall i | 0 <= i < |ops| ensures LatestAt(i) <==> IsLatest(before, i) {
        LatestIsModelled(i);
      }
      if key in latest {
        latest[key].Cancel();
      }
      forall i | 0 <= i < |ops| ensures Model().ops[i] == Aborted(before, BeginEvent(key, Session))[i] {
        assert ops[i] in ops;
        assert ops[i].index == i;
      }
      assert Model().ops == Aborted(before, BeginEvent(key, Session));
    }

    method Begin(key: Key, scope: Scope) returns (operation: Operation)
      requires Valid()
      modifies this`latest, this`ops, ops
      ensures Valid() && fresh(operation) && ops == old(ops) + [operation] && operation.index == |old(ops)|
      ensures Model() == Step(old(Model()), BeginEvent(key, scope))
    {
      CancelLatest(key);
      operation := new Operation(key, Level(scope), generations[..Level(scope) + 1], |ops|);
      Add(operation);
    }

    method Add(operation: Operation)
      requires Valid() && operation !in ops && operation.index == |ops|
      requires operation.level < LEVELS && |operation.snapshot| == operation.level + 1
      modifies this`latest, this`ops
      ensures Valid() && ops == old(ops) + [operation]
      ensures Model() == State(old(Model()).generations, old(Model()).ops + [operation.Model()],
                               old(Model()).latest[operation.key := operation.index])
    {
      latest := latest[operation.key := operation];
      ops := ops + [operation];
      assert Model().ops == old(Model()).ops + [operation.Model()];
      assert Model().latest == old(Model()).latest[operation.key := operation.index];
    }

    /** The test an operation makes before its request and again when the response arrives. */
    method IsCurrent(operation: Operation) returns (current: bool)
      requires Valid() && operation in ops
      ensures current <==> Current(Model(), operation.index)
    {
      LatestIsModelled(operation.index);
      if operation.key !in latest || latest[operation.key] != operation || operation.aborted {
        return false;
      }
      for i := 0 to |operation.snapshot|
        invariant operation.snapshot[..i] == generations[..i]
      {
        if operation.snapshot[i] != generations[i] {
          assert operation.snapshot[i] != generations[..][..|operation.snapshot|][i];
          return false;
        }
      }
      assert operation.snapshot[..|operation.snapshot|] == operation.snapshot;
      assert generations[..][..|operation.snapshot|] == generations[..|operation.snapshot|];
      current := true;
    }
  }
}
