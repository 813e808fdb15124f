/**
 Semantic inference in batches: each job handles the first targets beyond its cursor, in id order,
 and hands the rest to a continuation job.
 */
module Inference {
  import opened Wrappers
  import opened IsoTime
  import opened Text
  import Jobs

  type Ref = string

  datatype Error = BadBatch | NoTargets | NoSource | BadProvider

  datatype Selection = Selection(batch: seq<Ref>, remaining: nat, last: Ref)

  datatype Outcome = Outcome(batch: seq<Ref>, continuation: Option<Jobs.Document>)

  const PROVIDER := "provider_id"
  const CURSOR := "after_object_ref"

  /******* One batch *******/

  function Place(x: Ref, s: seq<Ref>): seq<Ref> {
    if s == [] || !LexLess(s[0], x) then [x] + s else [s[0]] + Place(x, s[1..])
  }

  function Sorted(s: seq<Ref>): seq<Ref> {
    if s == [] then [] else Place(s[0], Sorted(s[1..]))
  }

  predicate Exceeds(x: Ref, after: Option<Ref>) {
    after.None? || LexLess(after.value, x)
  }

  function Beyond(s: seq<Ref>, after: Option<Ref>): seq<Ref> {
    if s == [] then []
    else if Exceeds(s[0], after) then [s[0]] + Beyond(s[1..], after)
    else Beyond(s[1..], after)
  }

  /** size None takes every remaining target. */
  function Select(targets: seq<Ref>, size: Option<int>, after: Option<Ref>): Result<Selection, Error> {
    if size.Some? && !(1 <= size.value <= 200) then Err(BadBatch)
    else
      var rest := Beyond(Sorted(targets), after);
      var n := if size.Some? && size.value < |rest| then size.value else |rest|;
      if n == 0 then Err(NoTargets) else Ok(Selection(rest[..n], |rest| - n, rest[n - 1]))
  }

  /** The job handler: what it processes and the payload of its continuation. */
  function Handle(source: Option<string>, payload: Jobs.Document, targets: seq<Ref>, size: int)
    : Result<Outcome, Error>
  {
    if source.None? then Err(NoSource)
    else if PROVIDER !in payload || payload[PROVIDER].None? || Blank(payload[PROVIDER].value) then Err(BadProvider)
    else
      match Select(targets, Some(size), Cursor(payload))
      case Err(NoTargets) => Ok(Outcome([], None))
      case Err(e) => Err(e)
      case Ok(s) =>
        var next := map[PROVIDER := payload[PROVIDER], CURSOR := Some(s.last)];
        Ok(Outcome(s.batch, if s.remaining > 0 then Some(next) else None))
  }

  function Cursor(payload: Jobs.Document): Option<Ref> {
    if CURSOR in payload then payload[CURSOR] else None
  }

  /******* Order *******/

  predicate Ascending(s: seq<Ref>) {
    forall i, j :: 0 <= i < j < |s| ==> !LexLess(s[j], s[i])
  }

  predicate Increasing(s: seq<Ref>) {
    forall i, j :: 0 <= i < j < |s| ==> LexLess(s[i], s[j])
  }

  predicate Distinct(s: seq<Ref>) {
    forall i, j :: 0 <= i < j < |s| ==> s[i] != s[j]
  }

  lemma {:induction false} PlaceKeeps(x: Ref, s: seq<Ref>)
    requires Ascending(s)
    ensures Ascending(Place(x, s)) && multiset(Place(x, s)) == multiset{x} + multiset(s)
  {
    if s == [] {
    } else if !LexLess(s[0], x) {
      forall j | 0 <= j < |s| ensures !LexLess(s[j], x) {
        if LexLess(s[j], x) {
          LexTotal(s[0], s[j]);
          if s[0] != s[j] {
            LexTransitive(s[0], s[j], x);
          }
        }
      }
    } else {
      PlaceKeeps(x, s[1..]);
      assert s == [s[0]] + s[1..];
      var rest := Place(x, s[1..]);
      forall j | 0 <= j < |rest| ensures !LexLess(rest[j], s[0]) {
        assert rest[j] in multiset(rest);
        assert rest[j] == x || rest[j] in s[1..];
        LexTotal(s[0], x);
      }
    }
  }

  lemma {:induction false} SortedSorts(s: seq<Ref>)
    ensures Ascending(Sorted(s)) && multiset(Sorted(s)) == multiset(s)
    ensures |Sorted(s)| == |s| && forall x :: x in Sorted(s) <==> x in s
  {
    if s != [] {
      SortedSorts(s[1..]);
      PlaceKeeps(s[0], Sorted(s[1..]));
      assert s == [s[0]] + s[1..];
    }
    assert |multiset(Sorted(s))| == |multiset(s)|;
    assert forall x :: x in Sorted(s) <==> x in multiset(Sorted(s));
  }

  lemma DistinctSorts(s: seq<Ref>)
    requires Distinct(s)
    ensures Increasing(Sorted(s))
  {
    SortedSorts(s);
    var t := Sorted(s);
    forall i, j | 0 <= i < j < |t| ensures LexLess(t[i], t[j]) {
      LexTotal(t[i], t[j]);
      if t[i] == t[j] {
        TwiceInMultiset(t, i, j);
        OnceInMultiset(s, t[i]);
      }
    }
  }

  lemma TwiceInMultiset(s: seq<Ref>, i: nat, j: nat)
    requires i < j < |s| && s[i] == s[j]
    ensures multiset(s)[s[i]] >= 2
  {
    assert s == s[..j] + [s[j]] + s[j + 1..];
    assert s[i] in s[..j];
  }

  lemma {:induction false} OnceInMultiset(s: seq<Ref>, x: Ref)
    requires Distinct(s)
    ensures multiset(s)[x] <= 1
  {
    if s != [] {
      assert s == [s[0]] + s[1..];
      OnceInMultiset(s[1..], x);
      if s[0] == x {
        assert x !in s[1..];
      }
    }
  }

  lemma {:induction false} BeyondFilters(s: seq<Ref>, after: Option<Ref>)
    ensures forall x :: x in Beyond(s, after) <==> x in s && Exceeds(x, after)
    ensures Ascending(s) ==> Ascending(Beyond(s, after))
    ensures after.None? ==> Beyond(s, after) == s
  {
    if s != [] {
      BeyondFilters(s[1..], after);
      assert s == [s[0]] + s[1..];
      if Ascending(s) && Exceeds(s[0], after) {
        var rest := Beyond(s[1..], after);
        forall j | 0 <= j < |rest| ensures !LexLess(rest[j], s[0]) {
          assert rest[j] in rest && rest[j] in s[1..];
        }
      }
    }
  }

  lemma {:induction false} AllBeyond(s: seq<Ref>, after: Option<Ref>)
    requires forall x <- s :: Exceeds(x, after)
    ensures Beyond(s, after) == s
  {
    if s != [] {
      AllBeyond(s[1..], after);
    }
  }

  lemma {:induction false} BeyondShrinks(s: seq<Ref>, after: Option<Ref>, v: Ref)
    requires Exceeds(v, after)
    ensures |Beyond(s, Some(v))| <= |Beyond(s, after)|
    ensures v in s ==> |Beyond(s, Some(v))| < |Beyond(s, after)|
  {
    if s != [] {
      BeyondShrinks(s[1..], after, v);
      LexTotal(v, v);
      if after.Some? && LexLess(v, s[0]) {
        LexTransitive(after.value, v, s[0]);
      }
    }
  }

  /******* Chains *******/

  predicate Startable(source: Option<string>, payload: Jobs.Document) {
    source.Some? && PROVIDER in payload && payload[PROVIDER].Some? && !Blank(payload[PROVIDER].value)
  }

  function Rest(targets: seq<Ref>, payload: Jobs.Document): seq<Ref> {
    Beyond(Sorted(targets), Cursor(payload))
  }

  /** Which jobs are refused, and that a job without targets succeeds on an empty batch. */
  lemma HandleRule(source: Option<string>, payload: Jobs.Document, targets: seq<Ref>, size: int)
    ensures var provider := "provider_id" in payload && payload["provider_id"].Some?
                            && !Blank(payload["provider_id"].value);
            && (Handle(source, payload, targets, size).Ok? <==> source.Some? && provider && 1 <= size <= 200)
            && (source.None? ==> Handle(source, payload, targets, size) == Err(NoSource))
            && (source.Some? && !provider ==> Handle(source, payload, targets, size) == Err(BadProvider))
            && (source.Some? && provider && !(1 <= size <= 200) ==>
                  Handle(source, payload, targets, size) == Err(BadBatch))
    ensures Handle(source, payload, targets, size).Ok? && targets == [] ==>
              Handle(source, payload, targets, size).value == Outcome([], None)
  {
    SortedSorts(targets);
    BeyondFilters(Sorted(targets), Cursor(payload));
  }

  lemma ContinuationAdvances(source: Option<string>, payload: Jobs.Document, targets: seq<Ref>, size: int)
    requires Handle(source, payload, targets, size).Ok?
        && Handle(source, payload, targets, size).value.continuation.Some?
    ensures var o := Handle(source, payload, targets, size).value;
            var n := |o.batch|;
            && Startable(source, o.continuation.value)
            && 0 < n == size < |Rest(targets, payload)| && o.batch == Rest(targets, payload)[..n]
            && Cursor(o.continuation.value) == Some(o.batch[n - 1])
            && o.continuation.value[PROVIDER] == payload[PROVIDER]
            && |Rest(targets, o.continuation.value)| < |Rest(targets, payload)|
  {
    RestShrinks(targets, payload, size);
    var o := Handle(source, payload, targets, size).value;
    assert o.batch == Rest(targets, payload)[..size];
  }

  lemma RestShrinks(targets: seq<Ref>, payload: Jobs.Document, n: int)
    requires 0 < n <= |Rest(targets, payload)|
    ensures |Beyond(Sorted(targets), Some(Rest(targets, payload)[n - 1]))| < |Rest(targets, payload)|
  {
    var last := Rest(targets, payload)[n - 1];
    BeyondFilters(Sorted(targets), Cursor(payload));
    assert last in Rest(targets, payload);
    BeyondShrinks(Sorted(targets), Cursor(payload), last);
  }

  /** The batches a job and its continuations process when the targets stay what they are. */
  function Chain(source: Option<string>, payload: Jobs.Document, targets: seq<Ref>, size: int): seq<seq<Ref>>
    decreases |Rest(targets, payload)|
  {
    match Handle(source, payload, targets, size)
    case Err(_) => []
    case Ok(o) =>
      if o.continuation.None? then [o.batch]
      else
        ContinuationAdvances(source, payload, targets, size);
        [o.batch] + Chain(source, o.continuation.value, targets, size)
  }

  function Concat(batches: seq<seq<Ref>>): seq<Ref> {
    if batches == [] then [] else batches[0] + Concat(batches[1..])
  }

  lemma HandledBatch(source: Option<string>, payload: Jobs.Document, targets: seq<Ref>, size: int)
    requires 1 <= size <= 200 && Startable(source, payload)
    ensures Handle(source, payload, targets, size).Ok?
    ensures var o := Handle(source, payload, targets, size).value;
            var rest := Rest(targets, payload);
            && (o.continuation.Some? <==> size < |rest|)
            && o.batch == if size < |rest| then rest[..size] else rest
  {
  }

  lemma ConcatOne(x: seq<Ref>, rest: seq<seq<Ref>>)
    ensures Concat([x] + rest) == x + Concat(rest)
  {
  }

  /** Every batch of a chain but the last is full, and the last is not overfull. */
  lemma {:induction false} ChainFillsBatches(source: Option<string>, payload: Jobs.Document, targets: seq<Ref>,
      size: int)
    requires 1 <= size <= 200 && Startable(source, payload)
    ensures var chain := Chain(source, payload, targets, size);
            && chain != [] && |chain[|chain| - 1]| <= size
            && forall i :: 0 <= i < |chain| - 1 ==> |chain[i]| == size
    decreases |Rest(targets, payload)|
  {
    HandledBatch(source, payload, targets, size);
    var o := Handle(source, payload, targets, size).value;
    if o.continuation.Some? {
      ContinuationAdvances(source, payload, targets, size);
      ChainFillsBatches(source, o.continuation.value, targets, size);
    }
  }

  function Edge(k: nat, size: nat): nat {
    k * size
  }

  /** No two copies of a target stand on either side of the end of a batch. */
  ghost predicate NoCopyAcross(rest: seq<Ref>, size: nat) {
    forall k: nat :: 0 < Edge(k, size) < |rest| ==> rest[Edge(k, size) - 1] != rest[Edge(k, size)]
  }

  lemma NextEdge(k: nat, size: nat)
    ensures Edge(k + 1, size) == Edge(k, size) + size
    ensures Edge(0, size) == 0 && Edge(1, size) == size
    ensures size > 0 && k > 0 ==> Edge(k, size) >= size
  {
  }

  lemma NoCopyAcrossSplits(rest: seq<Ref>, size: nat)
    requires 0 < size < |rest|
    ensures NoCopyAcross(rest, size) <==> rest[size - 1] != rest[size] && NoCopyAcross(rest[size..], size)
  {
    NextEdge(0, size);
    if NoCopyAcross(rest, size) {
      assert 0 < Edge(1, size) < |rest|;
      forall k: nat | 0 < Edge(k, size) < |rest[size..]|
        ensures rest[size..][Edge(k, size) - 1] != rest[size..][Edge(k, size)]
      {
        NextEdge(k, size);
        assert rest[Edge(k + 1, size) - 1] != rest[Edge(k + 1, size)];
      }
    }
    if rest[size - 1] != rest[size] && NoCopyAcross(rest[size..], size) {
      forall k: nat | 0 < Edge(k, size) < |rest| ensures rest[Edge(k, size) - 1] != rest[Edge(k, size)] {
        NextEdge(k, size);
        if k > 1 {
          NextEdge(k - 1, size);
          assert rest[size..][Edge(k - 1, size) - 1] != rest[size..][Edge(k - 1, size)];
        }
      }
    }
  }

  lemma {:induction false} BeyondDrops(s: seq<Ref>, v: Ref)
    requires Ascending(s) && s != [] && LexLess(v, s[0])
    ensures Beyond(s, Some(v)) == s
  {
    forall x | x in s ensures Exceeds(x, Some(v)) {
      var i :| 0 <= i < |s| && s[i] == x;
      LexTotal(s[0], x);
      if i > 0 && s[0] != x {
        LexTransitive(v, s[0], x);
      }
    }
    AllBeyond(s, Some(v));
  }

  /** What is left of an ascending list beyond one of its elements is a tail without that element's copies. */
  lemma {:induction false} BeyondSorted(s: seq<Ref>, after: Option<Ref>)
    requires Ascending(s)
    ensures |Beyond(s, after)| <= |s| && Beyond(s, after) == s[|s| - |Beyond(s, after)|..]
  {
    if s != [] {
      if Exceeds(s[0], after) {
        if after.Some? {
          BeyondDrops(s, after.value);
        } else {
          BeyondFilters(s, after);
        }
      } else {
        BeyondSorted(s[1..], after);
      }
    }
  }

  /** The next run's targets are this run's without the batch, and without copies of its last target. */
  lemma RestAfterBatch(source: Option<string>, payload: Jobs.Document, targets: seq<Ref>, size: int)
    requires Handle(source, payload, targets, size).Ok?
    requires Handle(source, payload, targets, size).value.continuation.Some?
    ensures var rest, o := Rest(targets, payload), Handle(source, payload, targets, size).value;
            var next := Rest(targets, o.continuation.value);
            && 0 < size < |rest| && |next| <= |rest| - size && next == rest[|rest| - |next|..]
            && (|next| == |rest| - size <==> rest[size - 1] != rest[size])
  {
    ContinuationAdvances(source, payload, targets, size);
    SortedSorts(targets);
    AfterBatch(Sorted(targets), Cursor(payload), size);
  }

  lemma AfterBatch(s: seq<Ref>, after: Option<Ref>, size: nat)
    requires Ascending(s) && 0 < size < |Beyond(s, after)|
    ensures var rest := Beyond(s, after);
            var next := Beyond(s, Some(rest[size - 1]));
            && |next| <= |rest| - size && next == rest[|rest| - |next|..]
            && (|next| == |rest| - size <==> rest[size - 1] != rest[size])
  {
    var rest := Beyond(s, after);
    BeyondSorted(s, after);
    BeyondSorted(s, Some(rest[size - 1]));
    TailBeyond(s, |s| - |rest| + size - 1);
  }

  lemma {:induction false} NoneBeyond(s: seq<Ref>, v: Ref, j: nat)
    requires j <= |s| && forall i :: 0 <= i < j ==> !LexLess(v, s[i])
    ensures Beyond(s, Some(v)) == Beyond(s[j..], Some(v))
  {
    if j > 0 {
      NoneBeyond(s[1..], v, j - 1);
      assert s[1..][j - 1..] == s[j..];
    }
  }

  lemma TailBeyond(s: seq<Ref>, m: nat)
    requires Ascending(s) && m + 1 < |s|
    ensures |Beyond(s, Some(s[m]))| <= |s| - m - 1
    ensures |Beyond(s, Some(s[m]))| == |s| - m - 1 <==> s[m] != s[m + 1]
  {
    var tail := s[m + 1..];
    forall i | 0 <= i < m + 1 ensures !LexLess(s[m], s[i]) {
      LexTotal(s[m], s[m]);
    }
    NoneBeyond(s, s[m], m + 1);
    BeyondSorted(tail, Some(s[m]));
    LexTotal(s[m], s[m + 1]);
    if s[m] != s[m + 1] {
      BeyondDrops(tail, s[m]);
    } else {
      BeyondSorted(tail[1..], Some(s[m]));
    }
  }

  lemma ChainAtMost(source: Option<string>, payload: Jobs.Document, targets: seq<Ref>, size: int)
    requires 1 <= size <= 200 && Startable(source, payload)
    ensures |Concat(Chain(source, payload, targets, size))| <= |Rest(targets, payload)|
    decreases |Rest(targets, payload)|
  {
    HandledBatch(source, payload, targets, size);
    var o := Handle(source, payload, targets, size).value;
    if o.continuation.Some? {
      ContinuationAdvances(source, payload, targets, size);
      RestAfterBatch(source, payload, targets, size);
      ChainAtMost(source, o.continuation.value, targets, size);
      ConcatOne(o.batch, Chain(source, o.continuation.value, targets, size));
    } else {
      ConcatOne(o.batch, []);
    }
  }

  lemma ChainSplits(source: Option<string>, payload: Jobs.Document, targets: seq<Ref>, size: int)
    requires 1 <= size <= 200 && Startable(source, payload)
    requires Handle(source, payload, targets, size).Ok?
    requires Handle(source, payload, targets, size).value.continuation.Some?
    ensures var o := Handle(source, payload, targets, size).value;
            var rest, later := Rest(targets, payload), Concat(Chain(source, o.continuation.value, targets, size));
            && Startable(source, o.continuation.value)
            && |Rest(targets, o.continuation.value)| < |rest| && 0 < size < |rest|
            && (Concat(Chain(source, payload, targets, size)) == rest
                <==> rest[size - 1] != rest[size] && later == Rest(targets, o.continuation.value))
            && (rest[size - 1] != rest[size] ==> Rest(targets, o.continuation.value) == rest[size..])
  {
    var o := Handle(source, payload, targets, size).value;
    var rest, next := Rest(targets, payload), Rest(targets, o.continuation.value);
    var later := Concat(Chain(source, o.continuation.value, targets, size));
    ContinuationAdvances(source, payload, targets, size);
    RestAfterBatch(source, payload, targets, size);
    ChainAtMost(source, o.continuation.value, targets, size);
    ConcatOne(o.batch, Chain(source, o.continuation.value, targets, size));
    assert rest[..size] + rest[size..] == rest;
    if o.batch + later == rest {
      assert |later| == |rest| - size;
      assert (o.batch + later)[size..] == later;
    }
  }

  /** For any targets: a chain processes exactly the sorted targets beyond its cursor, copies included, if
      and only if no two copies stand on either side of the end of a batch. */
  lemma {:induction false} ChainIsCompleteExactly(
      source: Option<string>, payload: Jobs.Document, targets: seq<Ref>, size: int)
    requires 1 <= size <= 200 && Startable(source, payload)
    ensures Concat(Chain(source, payload, targets, size)) == Rest(targets, payload)
            <==> NoCopyAcross(Rest(targets, payload), size)
    decreases |Rest(targets, payload)|
  {
    var rest := Rest(targets, payload);
    HandledBatch(source, payload, targets, size);
    var o := Handle(source, payload, targets, size).value;
    if o.continuation.Some? {
      ChainSplits(source, payload, targets, size);
      ChainIsCompleteExactly(source, o.continuation.value, targets, size);
      NoCopyAcrossSplits(rest, size);
    } else {
      ConcatOne(o.batch, []);
      forall k: nat ensures !(0 < Edge(k, size) < |rest|) {
        NextEdge(k, size);
        if k == 0 {
          NextEdge(0, size);
        }
      }
    }
  }

  /** Distinct targets have no copies: each is processed once and in order. */
  lemma ChainCoversTargets(source: Option<string>, payload: Jobs.Document, targets: seq<Ref>, size: int)
    requires Distinct(targets) && 1 <= size <= 200 && Startable(source, payload)
    ensures Concat(Chain(source, payload, targets, size)) == Rest(targets, payload)
    ensures Increasing(Rest(targets, payload))
    ensures forall x :: x in Rest(targets, payload)
                        <==> && x in targets
                             && (CURSOR in payload && payload[CURSOR].Some? ==> LexLess(payload[CURSOR].value, x))
  {
    var rest := Rest(targets, payload);
    DistinctSorts(targets);
    SortedSorts(targets);
    BeyondSorted(Sorted(targets), Cursor(payload));
    BeyondFilters(Sorted(targets), Cursor(payload));
    forall k: nat | 0 < Edge(k, size) < |rest| ensures rest[Edge(k, size) - 1] != rest[Edge(k, size)] {
      LexTotal(rest[Edge(k, size)], rest[Edge(k, size)]);
    }
    ChainIsCompleteExactly(source, payload, targets, size);
  }

  /** The batches when each run sees the targets of its own moment. */
  function Pursue(source: Option<string>, payload: Jobs.Document, moments: seq<seq<Ref>>, size: int): seq<seq<Ref>>
    decreases |moments|
  {
    if moments == [] then []
    else
      match Handle(source, payload, moments[0], size)
      case Err(_) => []
      case Ok(o) =>
        [o.batch] + if o.continuation.None? then [] else Pursue(source, o.continuation.value, moments[1..], size)
  }

  lemma BatchLiesBeyond(source: Option<string>, payload: Jobs.Document, targets: seq<Ref>, size: int)
    requires Handle(source, payload, targets, size).Ok?
    ensures var o := Handle(source, payload, targets, size).value;
            Ascending(o.batch) && forall x <- o.batch :: x in targets && Exceeds(x, Cursor(payload))
  {
    SortedSorts(targets);
    BeyondFilters(Sorted(targets), Cursor(payload));
    var o := Handle(source, payload, targets, size).value;
    forall x | x in o.batch ensures x in Rest(targets, payload) {}
  }

  lemma {:induction false} PursuitLiesBeyond(source: Option<string>, payload: Jobs.Document, moments: seq<seq<Ref>>,
      size: int)
    ensures forall batch <- Pursue(source, payload, moments, size) :: forall x <- batch :: Exceeds(x, Cursor(payload))
    decreases |moments|
  {
    if moments != [] && Handle(source, payload, moments[0], size).Ok? {
      BatchLiesBeyond(source, payload, moments[0], size);
      var o := Handle(source, payload, moments[0], size).value;
      if o.continuation.Some? {
        ContinuationAdvances(source, payload, moments[0], size);
        PursuitLiesBeyond(source, o.continuation.value, moments[1..], size);
        var last := o.batch[|o.batch| - 1];
        forall x: Ref | LexLess(last, x) ensures Exceeds(x, Cursor(payload)) {
          assert Exceeds(last, Cursor(payload));
          if Cursor(payload).Some? {
            LexTransitive(Cursor(payload).value, last, x);
          }
        }
      }
    }
  }

  /** Whatever happens to the targets in between, the cursor strictly increases: a later batch lies
      beyond every earlier one, so no target is processed by two runs of a chain. */
  lemma {:induction false} BatchesNeverOverlap(source: Option<string>, payload: Jobs.Document, moments: seq<seq<Ref>>,
      size: int,
                                               i: nat, j: nat, x: Ref, y: Ref)
    requires i < j < |Pursue(source, payload, moments, size)|
    requires x in Pursue(source, payload, moments, size)[i] && y in Pursue(source, payload, moments, size)[j]
    ensures LexLess(x, y) && x != y
    decreases |moments|
  {
    var o := Handle(source, payload, moments[0], size).value;
    var next := o.continuation.value;
    var later := Pursue(source, next, moments[1..], size);
    assert Pursue(source, payload, moments, size)[j] == later[j - 1];
    if i == 0 {
      BatchLiesBeyond(source, payload, moments[0], size);
      ContinuationAdvances(source, payload, moments[0], size);
      PursuitLiesBeyond(source, next, moments[1..], size);
      assert later[j - 1] in later;
      BelowLast(o.batch, x, y);
    } else {
      BatchesNeverOverlap(source, next, moments[1..], size, i - 1, j - 1, x, y);
    }
  }

  lemma BelowLast(batch: seq<Ref>, x: Ref, y: Ref)
    requires Ascending(batch) && x in batch && LexLess(batch[|batch| - 1], y)
    ensures LexLess(x, y) && x != y
  {
    var last := batch[|batch| - 1];
    LexTotal(x, last);
    LexTotal(x, y);
    if x != last {
      LexTransitive(x, last, y);
    }
  }

  /** The chain runs through the job table: completing an owned job whose handler left targets over
      inserts a queued row that carries the rest of the chain. */
  lemma CompletionCarriesTheChain(t: Jobs.Table, id: Jobs.Id, worker: string, result: Jobs.Document, now: int,
                                  targets: seq<Ref>, size: int, next: Jobs.Id)
    requires Jobs.Kept(t) && Jobs.Owned(t, id, worker) && forall x <- t.jobs :: x.id != next
    requires var j := t.jobs[Jobs.Index(t.jobs, id)];
             Handle(j.source, j.payload, targets, size).Ok?
                 && Handle(j.source, j.payload, targets, size).value.continuation.Some?
    ensures var j := t.jobs[Jobs.Index(t.jobs, id)];
            var o := Handle(j.source, j.payload, targets, size).value;
            var r := Jobs.Complete(t, id, worker, result, now, Some((next, o.continuation.value)));
            && r.Ok? && |r.value.jobs| == |t.jobs| + 1
            && var row := r.value.jobs[|t.jobs|];
               && row.id == next && row.status == Jobs.Queued && Jobs.SameSlot(row, j)
               && Chain(j.source, j.payload, targets, size) == [o.batch] + Chain(row.source, row.payload, targets, size)
  {
  }
}
