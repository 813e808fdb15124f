/**
 Durable jobs: a table that workers lease rows from. One row is active per tenant, data source and
 type; a completed row may enqueue its own continuation in the same step.
 */
module Jobs {
  import opened Wrappers
  import opened IsoTime
  import opened Text

  type Id = string

  /** A JSON object of texts and nulls. */
  type Document = map<string, Option<string>>

  datatype Status = Queued | Running | Succeeded | Failed | Cancelled

  /** Instants count microseconds. */
  datatype Job = Job(
    id: Id, tenant: string, source: Option<string>, kind: string, payload: Document, status: Status,
    attempts: nat, limit: nat, scheduled: int, lease: Option<int>, worker: Option<string>,
    result: Option<Document>, error: Option<string>, created: int, updated: int)

  datatype Table = Table(tenants: set<string>, sources: set<(string, string)>, jobs: seq<Job>)

  datatype Error = BadCall | NotFound | Unresolved | LeaseLost

  const SECOND := 1_000_000

  /******* Rows *******/

  predicate ValidCode(code: string) {
    0 < |code| <= 200 && Letter(code[0])
    && forall c <- code :: Letter(c) || Numeral(c) || c == '_' || c == '.'
  }

  predicate ValidKind(kind: string) {
    0 < |kind| <= 100 && Lower(kind[0]) && forall c <- kind :: Lower(c) || Numeral(c) || c == '_'
  }

  /** What constructing a job record checks. */
  predicate WellFormed(j: Job) {
    && !Blank(j.tenant) && ValidKind(j.kind)
    && (j.source.Some? ==> !Blank(j.source.value))
    && 1 <= j.limit <= 10
    && (j.worker.Some? ==> !Blank(j.worker.value))
    && (j.error.Some? ==> ValidCode(j.error.value))
  }

  /** As every caller constructs a job: waiting, never attempted. */
  predicate Untried(j: Job) {
    j.status == Queued && j.attempts == 0 && j.lease.None? && j.worker.None? && j.result.None? && j.error.None?
  }

  predicate Active(j: Job) {
    j.status == Queued || j.status == Running
  }

  predicate Terminal(j: Job) {
    !Active(j)
  }

  predicate SameSlot(a: Job, b: Job) {
    a.tenant == b.tenant && a.source == b.source && a.kind == b.kind
  }

  predicate HeldBy(j: Job, worker: string) {
    j.status == Running && j.worker == Some(worker)
  }

  /******* Looking rows up *******/

  /** Position of the row with this id, or the number of rows. */
  function Index(jobs: seq<Job>, id: Id): (i: nat)
    ensures i <= |jobs|
    ensures i < |jobs| ==> jobs[i].id == id
    ensures forall k :: 0 <= k < i ==> jobs[k].id != id
  {
    if jobs == [] || jobs[0].id == id then 0 else 1 + Index(jobs[1..], id)
  }

  /** SELECT .. WHERE wanted ORDER BY before LIMIT 1. */
  function First(jobs: seq<Job>, wanted: Job -> bool, before: (Job, Job) -> bool): (best: Option<nat>)
    ensures best.Some? ==> best.value < |jobs| && wanted(jobs[best.value])
    ensures best.None? ==> forall j <- jobs :: !wanted(j)
  {
    if jobs == [] then None
    else
      var n := |jobs| - 1;
      var best := First(jobs[..n], wanted, before);
      assert jobs == jobs[..n] + [jobs[n]];
      if wanted(jobs[n]) && (best.None? || before(jobs[n], jobs[best.value])) then Some(n) else best
  }

  function ByAge(): (Job, Job) -> bool {
    (a: Job, b: Job) => a.created < b.created || (a.created == b.created && LexLess(a.id, b.id))
  }

  function BySchedule(): (Job, Job) -> bool {
    (a: Job, b: Job) => a.scheduled < b.scheduled || (a.scheduled == b.scheduled && ByAge()(a, b))
  }

  ghost predicate Orders(before: (Job, Job) -> bool) {
    && (forall a, b, c :: before(a, b) && before(b, c) ==> before(a, c))
    && (forall a, b :: before(a, b) || before(b, a) || a.id == b.id)
  }

  lemma ByAgeOrders()
    ensures Orders(ByAge())
  {
    forall a: Job, b: Job, c: Job | ByAge()(a, b) && ByAge()(b, c) ensures ByAge()(a, c) {
      if a.created == b.created == c.created {
        LexTransitive(a.id, b.id, c.id);
      }
    }
    forall a: Job, b: Job ensures ByAge()(a, b) || ByAge()(b, a) || a.id == b.id {
      LexTotal(a.id, b.id);
    }
  }

  lemma ByScheduleOrders()
    ensures Orders(BySchedule())
  {
    ByAgeOrders();
    forall a: Job, b: Job, c: Job | BySchedule()(a, b) && BySchedule()(b, c) ensures BySchedule()(a, c) {
      if a.scheduled == b.scheduled == c.scheduled {
        assert ByAge()(a, b) && ByAge()(b, c);
      }
    }
    forall a: Job, b: Job ensures BySchedule()(a, b) || BySchedule()(b, a) || a.id == b.id {
      assert ByAge()(a, b) || ByAge()(b, a) || a.id == b.id;
    }
  }

  predicate DistinctIds(jobs: seq<Job>) {
    forall i, j :: 0 <= i < j < |jobs| ==> jobs[i].id != jobs[j].id
  }

  lemma {:induction false} FirstIsLeast(jobs: seq<Job>, wanted: Job -> bool, before: (Job, Job) -> bool, k: nat)
    requires DistinctIds(jobs) && Orders(before)
    requires k < |jobs| && wanted(jobs[k])
    ensures var best := First(jobs, wanted, before);
            best.Some? && (best.value == k || before(jobs[best.value], jobs[k]))
  {
    var n := |jobs| - 1;
    var best := First(jobs[..n], wanted, before);
    if k < n {
      FirstIsLeast(jobs[..n], wanted, before, k);
    } else if best.Some? {
      assert before(jobs[n], jobs[best.value]) || before(jobs[best.value], jobs[n]);
    }
  }

  /******* Operations *******/

  /** The unique index covers active rows only, and a null data source never equals another. */
  predicate Collides(stored: Job, j: Job) {
    stored.id == j.id || (Active(stored) && Active(j) && j.source.Some? && SameSlot(stored, j))
  }

  function InSlot(j: Job): Job -> bool {
    (x: Job) => Active(x) && SameSlot(x, j)
  }

  /** INSERT .. ON CONFLICT DO NOTHING, answering with the oldest active row of the slot instead. */
  function Insert(t: Table, j: Job): Result<(Table, Job), Error> {
    if !exists x <- t.jobs :: Collides(x, j) then Ok((t.(jobs := t.jobs + [j]), j))
    else
      match First(t.jobs, InSlot(j), ByAge())
      case Some(k) => Ok((t, t.jobs[k]))
      case None => Err(Unresolved)
  }

  function Enqueue(t: Table, j: Job): Result<(Table, Job), Error> {
    if !WellFormed(j) then Err(BadCall)
    else if j.tenant !in t.tenants || (j.source.Some? && (j.tenant, j.source.value) !in t.sources) then Err(NotFound)
    else Insert(t, j)
  }

  predicate Expired(j: Job, now: int) {
    j.status == Running && j.lease.Some? && j.lease.value < now
  }

  function Claimable(now: int): Job -> bool {
    (j: Job) => j.scheduled <= now && (j.status == Queued || Expired(j, now))
  }

  function Claimed(j: Job, worker: string, now: int, seconds: int): Job {
    j.(status := Running, worker := Some(worker), attempts := j.attempts + 1,
       lease := Some(now + seconds * SECOND), updated := now)
  }

  predicate LeaseAsked(worker: string, seconds: int) {
    !Blank(worker) && 5 <= seconds <= 3600
  }

  /** The row a claim takes. */
  function Next(t: Table, now: int): Option<nat> {
    First(t.jobs, Claimable(now), BySchedule())
  }

  function Claim(t: Table, worker: string, now: int, seconds: int): Result<(Table, Option<Job>), Error> {
    if !LeaseAsked(worker, seconds) then Err(BadCall)
    else
      match Next(t, now)
      case None => Ok((t, None))
      case Some(i) =>
        var j := Claimed(t.jobs[i], worker, now, seconds);
        Ok((t.(jobs := t.jobs[i := j]), Some(j)))
  }

  predicate Owned(t: Table, id: Id, worker: string) {
    var i := Index(t.jobs, id);
    i < |t.jobs| && HeldBy(t.jobs[i], worker)
  }

  function Extended(j: Job, now: int, seconds: int): Job {
    j.(lease := Some(now + seconds * SECOND), updated := now)
  }

  function Heartbeat(t: Table, id: Id, worker: string, now: int, seconds: int): (Table, bool) {
    if !Owned(t, id, worker) then (t, false)
    else
      var i := Index(t.jobs, id);
      (t.(jobs := t.jobs[i := Extended(t.jobs[i], now, seconds)]), true)
  }

  function Done(j: Job, result: Document, now: int): Job {
    j.(status := Succeeded, result := Some(result), error := None, lease := None, worker := None, updated := now)
  }

  function Continuation(j: Job, id: Id, payload: Document, now: int): Job {
    Job(id, j.tenant, j.source, j.kind, payload, Queued, 0, j.limit, now, None, None, None, None, now, now)
  }

  /** `more` is the continuation's payload under the id generated for it. */
  function Complete(t: Table, id: Id, worker: string, result: Document, now: int, more: Option<(Id, Document)>)
    : Result<Table, Error>
  {
    if !Owned(t, id, worker) then Err(LeaseLost)
    else
      var i := Index(t.jobs, id);
      var done := t.(jobs := t.jobs[i := Done(t.jobs[i], result, now)]);
      if more.None? then Ok(done)
      else
        match Insert(done, Continuation(t.jobs[i], more.value.0, more.value.1, now))
        case Ok(inserted) => Ok(inserted.0)
        case Err(e) => Err(e)
  }

  function Failing(j: Job, code: string, now: int, delay: int): Job {
    var retry := j.attempts < j.limit;
    j.(status := if retry then Queued else Failed, scheduled := if retry then now + delay * SECOND else j.scheduled,
       result := None, error := Some(code), lease := None, worker := None, updated := now)
  }

  function Fail(t: Table, id: Id, worker: string, code: string, now: int, delay: int): Result<Table, Error> {
    if !ValidCode(code) || !(0 <= delay <= 3600) then Err(BadCall)
    else if !Owned(t, id, worker) then Err(LeaseLost)
    else
      var i := Index(t.jobs, id);
      Ok(t.(jobs := t.jobs[i := Failing(t.jobs[i], code, now, delay)]))
  }

  function Dropped(j: Job, now: int): Job {
    j.(status := Cancelled, lease := None, worker := None, updated := now)
  }

  function Cancel(t: Table, tenant: string, id: Id, now: int): Result<Table, Error> {
    var i := Index(t.jobs, id);
    if i == |t.jobs| || t.jobs[i].tenant != tenant || t.jobs[i].status != Queued then Err(NotFound)
    else Ok(t.(jobs := t.jobs[i := Dropped(t.jobs[i], now)]))
  }

  /******* Runs *******/

  datatype Event =
    | EnqueueEvent(job: Job)
    | ClaimEvent(worker: string, now: int, seconds: int)
    | HeartbeatEvent(id: Id, worker: string, now: int, seconds: int)
    | CompleteEvent(id: Id, worker: string, result: Document, now: int, more: Option<(Id, Document)>)
    | FailEvent(id: Id, worker: string, code: string, now: int, delay: int)
    | CancelEvent(tenant: string, id: Id, now: int)

  /** A call that raises leaves the table as it was. */
  function Step(t: Table, e: Event): Table {
    match e
    case EnqueueEvent(j) => (match Enqueue(t, j) case Ok(r) => r.0 case Err(_) => t)
    case ClaimEvent(w, now, secs) => (match Claim(t, w, now, secs) case Ok(r) => r.0 case Err(_) => t)
    case HeartbeatEvent(id, w, now, secs) => Heartbeat(t, id, w, now, secs).0
    case CompleteEvent(id, w, result, now, more) =>
      (match Complete(t, id, w, result, now, more) case Ok(r) => r case Err(_) => t)
    case FailEvent(id, w, code, now, delay) =>
      (match Fail(t, id, w, code, now, delay) case Ok(r) => r case Err(_) => t)
    case CancelEvent(tenant, id, now) => (match Cancel(t, tenant, id, now) case Ok(r) => r case Err(_) => t)
  }

  function Run(t: Table, events: seq<Event>): Table {
    if events == [] then t else Step(Run(t, events[..|events| - 1]), events[|events| - 1])
  }

  function EmptyTable(tenants: set<string>, sources: set<(string, string)>): Table {
    Table(tenants, sources, [])
  }

  /** How an event may change one row. */
  predicate Moves(a: Job, b: Job, e: Event) {
    match e
    case EnqueueEvent(_) => false
    case ClaimEvent(w, now, secs) => LeaseAsked(w, secs) && Claimable(now)(a) && b == Claimed(a, w, now, secs)
    case HeartbeatEvent(id, w, now, secs) => a.id == id && HeldBy(a, w) && b == Extended(a, now, secs)
    case CompleteEvent(id, w, result, now, _) => a.id == id && HeldBy(a, w) && b == Done(a, result, now)
    case FailEvent(id, w, code, now, delay) => a.id == id && HeldBy(a, w) && ValidCode(code)
        && b == Failing(a, code, now, delay)
    case CancelEvent(_, id, now) => a.id == id && a.status == Queued && b == Dropped(a, now)
  }

  predicate Births(t: Table, j: Job, e: Event) {
    match e
    case EnqueueEvent(job) => j == job && WellFormed(j)
    case CompleteEvent(id, _, _, now, more) =>
      more.Some? && exists x <- t.jobs :: x.id == id && j == Continuation(x, more.value.0, more.value.1, now)
    case _ => false
  }

  /** One event changes at most one stored row and adds at most one, which collides with none. */
  predicate Shape(t: Table, u: Table, e: Event) {
    && |t.jobs| <= |u.jobs| <= |t.jobs| + 1
    && (forall i :: 0 <= i < |t.jobs| ==> u.jobs[i] == t.jobs[i] || Moves(t.jobs[i], u.jobs[i], e))
    && (forall i, j :: 0 <= i < j < |t.jobs| ==> u.jobs[i] == t.jobs[i] || u.jobs[j] == t.jobs[j])
    && (|u.jobs| > |t.jobs| ==>
          && Births(t, u.jobs[|t.jobs|], e)
          && forall i :: 0 <= i < |t.jobs| ==> !Collides(u.jobs[i], u.jobs[|t.jobs|]))
    && u.tenants == t.tenants && u.sources == t.sources
  }

  lemma CompleteShape(t: Table, e: Event)
    requires e.CompleteEvent?
    ensures Shape(t, Step(t, e), e)
  {
  }

  lemma StepShape(t: Table, e: Event)
    ensures Shape(t, Step(t, e), e)
  {
    if e.CompleteEvent? {
      CompleteShape(t, e);
    }
  }

  /******* One active row per slot *******/

  predicate OneActive(jobs: seq<Job>) {
    forall i, j :: 0 <= i < j < |jobs| && Active(jobs[i]) && Active(jobs[j]) && jobs[i].source.Some?
                   ==> !SameSlot(jobs[i], jobs[j])
  }

  predicate RowKept(j: Job) {
    && WellFormed(j)
    && (j.lease.Some? <==> j.status == Running) && (j.worker.Some? <==> j.status == Running)
    && (j.status == Queued ==> j.attempts < j.limit)
    && (j.status == Failed ==> j.limit <= j.attempts && j.error.Some?)
    && (j.result.Some? <==> j.status == Succeeded)
  }

  predicate Kept(t: Table) {
    DistinctIds(t.jobs) && OneActive(t.jobs) && forall j <- t.jobs :: RowKept(j)
  }

  predicate Ordinary(events: seq<Event>) {
    forall e <- events :: e.EnqueueEvent? ==> Untried(e.job)
  }

  lemma StepKeepsSlots(t: Table, e: Event)
    requires DistinctIds(t.jobs) && OneActive(t.jobs)
    ensures DistinctIds(Step(t, e).jobs) && OneActive(Step(t, e).jobs)
  {
    StepShape(t, e);
    var u := Step(t, e);
    forall i, j | 0 <= i < j < |u.jobs|
      ensures u.jobs[i].id != u.jobs[j].id
      ensures Active(u.jobs[i]) && Active(u.jobs[j]) && u.jobs[i].source.Some? ==> !SameSlot(u.jobs[i], u.jobs[j])
    {
      if j == |t.jobs| {
        assert !Collides(u.jobs[i], u.jobs[j]);
      } else {
        assert t.jobs[i].id != t.jobs[j].id;
      }
    }
  }

  lemma MovedRowKept(a: Job, b: Job, e: Event)
    requires RowKept(a) && Moves(a, b, e)
    ensures RowKept(b)
  {
  }

  lemma BornRowKept(t: Table, j: Job, e: Event)
    requires (forall x <- t.jobs :: RowKept(x)) && Births(t, j, e) && (e.EnqueueEvent? ==> Untried(e.job))
    ensures RowKept(j)
  {
  }

  lemma ShapedRowKept(t: Table, u: Table, e: Event, i: nat)
    requires Shape(t, u, e) && i < |u.jobs| && (i < |t.jobs| ==> RowKept(t.jobs[i]))
    requires i == |t.jobs| ==> RowKept(u.jobs[i])
    ensures RowKept(u.jobs[i])
  {
    if i < |t.jobs| && u.jobs[i] != t.jobs[i] {
      MovedRowKept(t.jobs[i], u.jobs[i], e);
    }
  }

  lemma StepKeepsRows(t: Table, e: Event)
    requires forall j <- t.jobs :: RowKept(j)
    requires e.EnqueueEvent? ==> Untried(e.job)
    ensures forall j <- Step(t, e).jobs :: RowKept(j)
  {
    StepShape(t, e);
    ShapeKeepsRows(t, Step(t, e), e);
  }

  lemma ShapeKeepsRows(t: Table, u: Table, e: Event)
    requires (forall j <- t.jobs :: RowKept(j)) && Shape(t, u, e) && (e.EnqueueEvent? ==> Untried(e.job))
    ensures forall j <- u.jobs :: RowKept(j)
  {
    if |u.jobs| > |t.jobs| {
      BornRowKept(t, u.jobs[|t.jobs|], e);
    }
    forall i | 0 <= i < |u.jobs| ensures RowKept(u.jobs[i]) {
      ShapedRowKept(t, u, e, i);
    }
  }

  /** Every reachable table has one active row per tenant, data source and type, and sound rows. */
  lemma {:induction false} RunKeeps(t: Table, events: seq<Event>)
    requires Kept(t) && Ordinary(events)
    ensures Kept(Run(t, events))
  {
    if events != [] {
      var n := |events| - 1;
      RunKeeps(t, events[..n]);
      assert events[n] in events;
      StepKeepsSlots(Run(t, events[..n]), events[n]);
      StepKeepsRows(Run(t, events[..n]), events[n]);
    }
  }

  /** A new job is inserted unless its slot is taken, and a slot without a data source never is. */
  lemma EnqueueInserts(t: Table, j: Job)
    requires Kept(t) && Untried(j) && WellFormed(j)
    requires j.tenant in t.tenants && (j.source.Some? ==> (j.tenant, j.source.value) in t.sources)
    requires forall x <- t.jobs :: x.id != j.id
    ensures Enqueue(t, j) == Ok((t.(jobs := t.jobs + [j]), j))
            <==> j.source.None? || forall x <- t.jobs :: Active(x) ==> !SameSlot(x, j)
    ensures Enqueue(t, j).Ok?
    ensures var (u, answer) := Enqueue(t, j).value;
            u != t.(jobs := t.jobs + [j]) ==>
              u == t && answer in t.jobs && Active(answer) && SameSlot(answer, j)
              && forall x <- t.jobs :: Active(x) && SameSlot(x, j) ==> x == answer
  {
  }

  /** Jobs without a data source are not deduplicated: enqueueing twice leaves two active rows. */
  lemma NullSourceIsNotDeduplicated(t: Table, a: Job, b: Job)
    requires Untried(a) && Untried(b) && WellFormed(a) && WellFormed(b) && SameSlot(a, b) && a.source.None?
    requires a.tenant in t.tenants && a.id != b.id
    requires forall x <- t.jobs :: x.id != a.id && x.id != b.id
    ensures Run(t, [EnqueueEvent(a), EnqueueEvent(b)]).jobs == t.jobs + [a, b]
    ensures Active(a) && Active(b)
  {
    var events := [EnqueueEvent(a), EnqueueEvent(b)];
    assert events[..1] == [EnqueueEvent(a)] && events[..1][..0] == [];
    assert Run(t, []) == t;
    assert Run(t, events[..1]) == Step(t, EnqueueEvent(a));
    assert Step(t, EnqueueEvent(a)).jobs == t.jobs + [a];
    var u := Step(t, EnqueueEvent(a));
    forall x | x in u.jobs ensures !Collides(x, b) {}
    assert Step(u, EnqueueEvent(b)).jobs == t.jobs + [a] + [b];
  }

  /** Completing frees the slot in the same step, so the continuation is inserted and never answered
      with another row: exactly when the id generated for it is new. */
  lemma ContinuationIsInserted(t: Table, id: Id, worker: string, result: Document, now: int, more: (Id, Document))
    requires Kept(t) && Owned(t, id, worker)
    ensures var i := Index(t.jobs, id);
            var j := t.jobs[i];
            var next := Job(more.0, j.tenant, j.source, j.kind, more.1, Queued, 0, j.limit, now, None, None, None, None,
                            now, now);
            Complete(t, id, worker, result, now, Some(more))
              == Ok(t.(jobs := t.jobs[i := Done(t.jobs[i], result, now)] + [next]))
            <==> forall x <- t.jobs :: x.id != more.0
  {
    var i := Index(t.jobs, id);
    var done := t.(jobs := t.jobs[i := Done(t.jobs[i], result, now)]);
    var next := Continuation(t.jobs[i], more.0, more.1, now);
    if x :| x in t.jobs && x.id == more.0 {
      var k :| 0 <= k < |t.jobs| && t.jobs[k] == x;
      assert Collides(done.jobs[k], next);
      assert |done.jobs| != |done.jobs + [next]|;
    } else {
      forall x | x in done.jobs ensures !Collides(x, next) {
        var k :| 0 <= k < |done.jobs| && done.jobs[k] == x;
        assert x.id == t.jobs[k].id;
        if k != i {
          assert Active(t.jobs[k]) && Active(t.jobs[i]) && next.source.Some? ==> !SameSlot(t.jobs[k], t.jobs[i]);
        }
      }
    }
  }

  /******* Claims *******/

  /** Due, and free or on a lease that ran out. */
  predicate Eligible(j: Job, now: int) {
    j.scheduled <= now && (j.status == Queued || (j.status == Running && j.lease.Some? && j.lease.value < now))
  }

  predicate Older(a: Job, b: Job) {
    a.created < b.created || (a.created == b.created && LexLess(a.id, b.id))
  }

  /** A claim takes the row that is first by schedule, creation and id among the eligible ones, and answers
      nothing only when there is none. The row is the worker's then, for as many seconds as asked. */
  lemma ClaimTakesTheEarliest(t: Table, worker: string, now: int, seconds: int)
    requires DistinctIds(t.jobs)
    ensures Claim(t, worker, now, seconds).Ok? <==> !Blank(worker) && 5 <= seconds <= 3600
    ensures Claim(t, worker, now, seconds).Ok? ==>
              var (u, taken) := Claim(t, worker, now, seconds).value;
              && (taken.None? <==> forall j <- t.jobs :: !Eligible(j, now))
              && (taken.None? ==> u == t)
              && (taken.Some? ==>
                    var i := Index(t.jobs, taken.value.id);
                    && i < |t.jobs| && Eligible(t.jobs[i], now)
                    && taken.value
                       == t.jobs[i].(status := Running, worker := Some(worker), attempts := t.jobs[i].attempts + 1,
                                     lease := Some(now + seconds * 1_000_000), updated := now)
                    && u == t.(jobs := t.jobs[i := taken.value])
                    && forall j <- t.jobs :: Eligible(j, now) && j.id != taken.value.id ==>
                         t.jobs[i].scheduled < j.scheduled
                         || (t.jobs[i].scheduled == j.scheduled && Older(t.jobs[i], j)))
  {
    NextIsEarliest(t, now);
    if LeaseAsked(worker, seconds) && Next(t, now).Some? {
      FindsRow(t.jobs, Next(t, now).value);
    }
  }

  lemma NextIsEarliest(t: Table, now: int)
    requires DistinctIds(t.jobs)
    ensures Next(t, now).None? <==> forall j <- t.jobs :: !Eligible(j, now)
    ensures Next(t, now).Some? ==>
              var first := t.jobs[Next(t, now).value];
              && Eligible(first, now)
              && forall j <- t.jobs :: Eligible(j, now) && j.id != first.id ==>
                   first.scheduled < j.scheduled || (first.scheduled == j.scheduled && Older(first, j))
  {
    ByScheduleOrders();
    assert forall j :: Eligible(j, now) <==> Claimable(now)(j);
    if Next(t, now).Some? {
      var first := t.jobs[Next(t, now).value];
      forall j | j in t.jobs && Eligible(j, now) && j.id != first.id
        ensures first.scheduled < j.scheduled || (first.scheduled == j.scheduled && Older(first, j))
      {
        var m :| 0 <= m < |t.jobs| && t.jobs[m] == j;
        FirstIsLeast(t.jobs, Claimable(now), BySchedule(), m);
        assert BySchedule()(first, j);
        assert first.scheduled == j.scheduled ==> ByAge()(first, j);
      }
    }
  }

  lemma FindsRow(jobs: seq<Job>, i: nat)
    requires DistinctIds(jobs) && i < |jobs|
    ensures Index(jobs, jobs[i].id) == i
  {
  }

  predicate Takes(t: Table, e: Event, i: nat) {
    e.ClaimEvent? && LeaseAsked(e.worker, e.seconds) && Next(t, e.now) == Some(i)
  }

  /** Some claim of this worker takes the row at i along the run. */
  predicate TakenBy(t: Table, events: seq<Event>, i: nat, worker: string) {
    events != [] &&
    var n := |events| - 1;
    TakenBy(t, events[..n], i, worker) || (Takes(Run(t, events[..n]), events[n], i) && events[n].worker == worker)
  }

  lemma {:induction false} RowsStay(t: Table, events: seq<Event>, i: nat)
    requires i < |t.jobs|
    ensures i < |Run(t, events).jobs|
    ensures Run(t, events).jobs[i].id == t.jobs[i].id && SameSlot(Run(t, events).jobs[i], t.jobs[i])
    ensures Run(t, events).jobs[i].limit == t.jobs[i].limit
  {
    if events != [] {
      var n := |events| - 1;
      RowsStay(t, events[..n], i);
      StepShape(Run(t, events[..n]), events[n]);
    }
  }

  /** Succeeded, failed and cancelled rows never change again. */
  lemma {:induction false} TerminalIsFinal(t: Table, events: seq<Event>, i: nat)
    requires i < |t.jobs| && Terminal(t.jobs[i])
    ensures i < |Run(t, events).jobs| && Run(t, events).jobs[i] == t.jobs[i]
  {
    if events != [] {
      var n := |events| - 1;
      TerminalIsFinal(t, events[..n], i);
      StepShape(Run(t, events[..n]), events[n]);
    }
  }

  lemma {:induction false} StaysUnheld(t: Table, events: seq<Event>, i: nat, worker: string)
    requires i < |t.jobs| && !HeldBy(t.jobs[i], worker) && !TakenBy(t, events, i, worker)
    ensures i < |Run(t, events).jobs| && !HeldBy(Run(t, events).jobs[i], worker)
  {
    if events != [] {
      var n := |events| - 1;
      StaysUnheld(t, events[..n], i, worker);
      StepShape(Run(t, events[..n]), events[n]);
    }
  }

  /** Fencing: once another worker's claim has taken the row, every call of the former holder is
      refused and changes nothing, until that holder claims the row again. */
  lemma FormerHolderIsFenced(t: Table, e: Event, events: seq<Event>, i: nat, former: string)
    requires DistinctIds(t.jobs) && OneActive(t.jobs) && Takes(t, e, i) && e.worker != former
    requires !TakenBy(Step(t, e), events, i, former)
    ensures var u := Run(Step(t, e), events);
            var id := t.jobs[i].id;
            && (forall result, now, more :: Complete(u, id, former, result, now, more) == Err(LeaseLost))
            && (forall code, now, delay :: Fail(u, id, former, code, now, delay).Err?)
            && (forall now, seconds :: Heartbeat(u, id, former, now, seconds) == (u, false))
  {
    var s := Step(t, e);
    StepShape(t, e);
    assert s.jobs[i] == Claimed(t.jobs[i], e.worker, e.now, e.seconds);
    StaysUnheld(s, events, i, former);
    RowsStay(s, events, i);
    RunKeepsSlots(s, events);
    var u := Run(s, events);
    var k := Index(u.jobs, t.jobs[i].id);
    assert u.jobs[i].id == t.jobs[i].id;
    assert k == i;
    assert !Owned(u, t.jobs[i].id, former);
  }

  lemma {:induction false} RunKeepsSlots(t: Table, events: seq<Event>)
    requires DistinctIds(t.jobs) && OneActive(t.jobs)
    ensures DistinctIds(Run(t, events).jobs) && OneActive(Run(t, events).jobs)
  {
    if events != [] {
      var n := |events| - 1;
      RunKeepsSlots(t, events[..n]);
      StepKeepsSlots(Run(t, events[..n]), events[n]);
    }
  }

  predicate WithinLease(e: Event, id: Id, until: int) {
    match e
    case ClaimEvent(_, now, _) => now <= until
    case HeartbeatEvent(x, _, now, seconds) => x == id ==> until <= now + seconds * SECOND
    case _ => true
  }

  predicate Relinquishes(e: Event, id: Id, worker: string) {
    (e.CompleteEvent? || e.FailEvent?) && e.id == id && e.worker == worker
  }

  /** Until the lease ends by every claimer's clock the holder keeps the row, whatever anyone calls, as
      long as the holder neither gives it up nor cuts its own lease short. */
  lemma {:induction false} LeaseProtects(t: Table, events: seq<Event>, i: nat, worker: string, until: int)
    requires DistinctIds(t.jobs) && OneActive(t.jobs)
    requires i < |t.jobs| && HeldBy(t.jobs[i], worker) && t.jobs[i].lease.Some? && until <= t.jobs[i].lease.value
    requires forall e <- events :: WithinLease(e, t.jobs[i].id, until) && !Relinquishes(e, t.jobs[i].id, worker)
    ensures var u := Run(t, events);
            && i < |u.jobs| && HeldBy(u.jobs[i], worker) && u.jobs[i].lease.Some? && until <= u.jobs[i].lease.value
            && u.jobs[i].attempts == t.jobs[i].attempts
  {
    if events != [] {
      var n := |events| - 1;
      LeaseProtects(t, events[..n], i, worker, until);
      RowsStay(t, events[..n], i);
      var u := Run(t, events[..n]);
      StepShape(u, events[n]);
      assert events[n] in events;
      assert WithinLease(events[n], u.jobs[i].id, until) && !Relinquishes(events[n], u.jobs[i].id, worker);
    }
  }

  /** After a claim the row is the worker's for the seconds it asked: as long as no claim is made holder a clock
      past that, the holder neither completes nor fails it, and no heartbeat cuts it short. */
  lemma ClaimProtects(t: Table, worker: string, now: int, seconds: int, events: seq<Event>)
    requires DistinctIds(t.jobs) && OneActive(t.jobs)
    requires Claim(t, worker, now, seconds).Ok? && Claim(t, worker, now, seconds).value.1.Some?
    requires var id, until := Claim(t, worker, now, seconds).value.1.value.id, now + seconds * 1_000_000;
             forall e <- events ::
               match e
               case ClaimEvent(_, clock, _) => clock <= until
               case HeartbeatEvent(x, _, clock, more) => x == id ==> until <= clock + more * 1_000_000
               case CompleteEvent(x, holder, _, _, _) => x != id || holder != worker
               case FailEvent(x, holder, _, _, _) => x != id || holder != worker
               case _ => true
    ensures var (s, taken) := Claim(t, worker, now, seconds).value;
            var u := Run(s, events);
            var i := Index(u.jobs, taken.value.id);
            && i < |u.jobs| && u.jobs[i].status == Running && u.jobs[i].worker == Some(worker)
            && u.jobs[i].attempts == taken.value.attempts
  {
    var (s, taken) := Claim(t, worker, now, seconds).value;
    var e := ClaimEvent(worker, now, seconds);
    var i := Next(t, now).value;
    var id := taken.value.id;
    StepKeepsSlots(t, e);
    assert s == Step(t, e) && s.jobs[i] == taken.value;
    forall x | x in events ensures WithinLease(x, id, now + seconds * 1_000_000) && !Relinquishes(x, id, worker) {
    }
    LeaseProtects(s, events, i, worker, now + seconds * 1_000_000);
    RowsStay(s, events, i);
    RunKeepsSlots(s, events);
    assert Run(s, events).jobs[i].id == id;
  }

  /******* What the other calls do to a row *******/

  /** The answer to an insert: the new row, or the oldest active one of its slot. */
  lemma InsertRule(t: Table, j: Job)
    requires DistinctIds(t.jobs)
    ensures var taken := exists x <- t.jobs ::
                           x.id == j.id || (Active(x) && Active(j) && j.source.Some? && SameSlot(x, j));
            match Insert(t, j)
            case Ok((u, answer)) =>
              if !taken then u == t.(jobs := t.jobs + [j]) && answer == j
              else
                && u == t && answer in t.jobs && Active(answer) && SameSlot(answer, j)
                && forall x <- t.jobs :: Active(x) && SameSlot(x, j) && x.id != answer.id ==> Older(answer, x)
            case Err(e) => e == Unresolved && taken && forall x <- t.jobs :: !(Active(x) && SameSlot(x, j))
  {
    ByAgeOrders();
    assert (exists x <- t.jobs :: Collides(x, j))
        <==> exists x <- t.jobs :: x.id == j.id || (Active(x) && Active(j) && j.source.Some? && SameSlot(x, j));
    var best := First(t.jobs, InSlot(j), ByAge());
    if best.Some? {
      forall x | x in t.jobs && Active(x) && SameSlot(x, j) && x.id != t.jobs[best.value].id
        ensures Older(t.jobs[best.value], x)
      {
        var m :| 0 <= m < |t.jobs| && t.jobs[m] == x;
        FirstIsLeast(t.jobs, InSlot(j), ByAge(), m);
        assert ByAge()(t.jobs[best.value], x);
      }
    }
  }

  /** Which jobs are refused before anything is inserted. */
  lemma EnqueueRule(t: Table, j: Job)
    ensures Enqueue(t, j) == Err(BadCall)
            <==> || Blank(j.tenant) || (j.source.Some? && Blank(j.source.value)) || !(1 <= j.limit <= 10)
                 || !(1 <= |j.kind| <= 100 && 'a' <= j.kind[0] <= 'z'
                      && forall c <- j.kind :: 'a' <= c <= 'z' || '0' <= c <= '9' || c == '_')
                 || (j.worker.Some? && Blank(j.worker.value)) || (j.error.Some? && !ValidCode(j.error.value))
    ensures Enqueue(t, j) == Err(NotFound)
            <==> Enqueue(t, j) != Err(BadCall)
                 && (j.tenant !in t.tenants || (j.source.Some? && (j.tenant, j.source.value) !in t.sources))
    ensures Enqueue(t, j).Ok? ==> Enqueue(t, j) == Insert(t, j)
  {
    if Enqueue(t, j).Err? && WellFormed(j) {
      assert Enqueue(t, j).error != BadCall;
    }
  }

  /** A heartbeat is the holder's and makes its lease last so many seconds from now. */
  lemma HeartbeatRule(t: Table, i: nat, worker: string, now: int, seconds: int)
    requires DistinctIds(t.jobs) && i < |t.jobs|
    ensures var j := t.jobs[i];
            Heartbeat(t, j.id, worker, now, seconds)
            == if j.status == Running && j.worker == Some(worker) then
                 (t.(jobs := t.jobs[i := j.(lease := Some(now + seconds * 1_000_000), updated := now)]), true)
               else (t, false)
  {
    FindsRow(t.jobs, i);
  }

  /** Only the holder completes, which stores the result and takes worker, lease and error off the row. */
  lemma CompleteRule(t: Table, i: nat, worker: string, result: Document, now: int)
    requires DistinctIds(t.jobs) && i < |t.jobs|
    ensures var j := t.jobs[i];
            Complete(t, j.id, worker, result, now, None)
            == if j.status == Running && j.worker == Some(worker) then
                 Ok(t.(jobs := t.jobs[i := Job(j.id, j.tenant, j.source, j.kind, j.payload, Succeeded, j.attempts,
                      j.limit, j.scheduled, None, None, Some(result), None, j.created, now)]))
               else Err(LeaseLost)
  {
    FindsRow(t.jobs, i);
  }

  /** Only the holder fails, with a code and a delay within bounds. With attempts left the row waits for the
      delay and is tried again, otherwise it has failed for good and keeps its schedule. */
  lemma FailRule(t: Table, i: nat, worker: string, code: string, now: int, delay: int)
    requires DistinctIds(t.jobs) && i < |t.jobs|
    ensures var j := t.jobs[i];
            Fail(t, j.id, worker, code, now, delay)
            == if !(0 <= delay <= 3600) || !(1 <= |code| <= 200 && Letter(code[0])
                   && forall c <- code :: Letter(c) || Numeral(c) || c == '_' || c == '.') then Err(BadCall)
               else if j.status != Running || j.worker != Some(worker) then Err(LeaseLost)
               else if j.attempts < j.limit then
                 Ok(t.(jobs := t.jobs[i := Job(j.id, j.tenant, j.source, j.kind, j.payload, Queued, j.attempts, j.limit,
                      now + delay * 1_000_000, None, None, None, Some(code), j.created, now)]))
               else
                 Ok(t.(jobs := t.jobs[i := Job(j.id, j.tenant, j.source, j.kind, j.payload, Failed, j.attempts, j.limit,
                      j.scheduled, None, None, None, Some(code), j.created, now)]))
  {
    FindsRow(t.jobs, i);
  }

  /** A queued row is left alone, or cancelled, as long as every claim is made before it is due. */
  lemma {:induction false} QueuedRowWaits(t: Table, events: seq<Event>, i: nat)
    requires i < |t.jobs| && t.jobs[i].status == Queued
    requires forall e <- events :: e.ClaimEvent? ==> e.now < t.jobs[i].scheduled
    ensures i < |Run(t, events).jobs|
    ensures var j := Run(t, events).jobs[i];
            j == t.jobs[i] || j == t.jobs[i].(status := Cancelled, lease := None, worker := None, updated := j.updated)
  {
    if events != [] {
      var n := |events| - 1;
      QueuedRowWaits(t, events[..n], i);
      StepShape(Run(t, events[..n]), events[n]);
      assert events[n] in events;
    }
  }

  /** A failed attempt is not repeated before its delay is over by some claimer's clock. */
  lemma RetryWaits(t: Table, i: nat, worker: string, code: string, now: int, delay: int, events: seq<Event>)
    requires DistinctIds(t.jobs) && i < |t.jobs| && t.jobs[i].attempts < t.jobs[i].limit
    requires Fail(t, t.jobs[i].id, worker, code, now, delay).Ok?
    requires forall e <- events :: e.ClaimEvent? ==> e.now < now + delay * 1_000_000
    ensures var u := Run(Fail(t, t.jobs[i].id, worker, code, now, delay).value, events);
            && i < |u.jobs| && u.jobs[i].id == t.jobs[i].id && u.jobs[i].attempts == t.jobs[i].attempts
            && u.jobs[i].status in {Queued, Cancelled}
  {
    FailRule(t, i, worker, code, now, delay);
    var s := Fail(t, t.jobs[i].id, worker, code, now, delay).value;
    QueuedRowWaits(s, events, i);
  }

  /** Only a queued row is cancelled, and only by its tenant. */
  lemma CancelRule(t: Table, tenant: string, i: nat, now: int)
    requires DistinctIds(t.jobs) && i < |t.jobs|
    ensures var j := t.jobs[i];
            Cancel(t, tenant, j.id, now)
            == if j.tenant == tenant && j.status == Queued then
                 Ok(t.(jobs := t.jobs[i := j.(status := Cancelled, lease := None, worker := None, updated := now)]))
               else Err(NotFound)
  {
    FindsRow(t.jobs, i);
  }

  /******* Attempts *******/

  /** How often a run reclaims the row with this id after its lease ran out. */
  function Reclaims(t: Table, events: seq<Event>, id: Id): nat {
    if events == [] then 0
    else
      var n := |events| - 1;
      var u := Run(t, events[..n]);
      var i := Index(u.jobs, id);
      Reclaims(t, events[..n], id)
        + if i < |u.jobs| && u.jobs[i].status == Running && Takes(u, events[n], i) then 1 else 0
  }

  predicate WithinAttempts(j: Job, reclaims: nat) {
    j.attempts <= j.limit + reclaims && (j.status == Queued ==> j.attempts < j.limit)
  }

  lemma StepAttempts(t: Table, e: Event, i: nat, reclaims: nat)
    requires Kept(t) && i < |t.jobs| && WithinAttempts(t.jobs[i], reclaims)
    ensures WithinAttempts(Step(t, e).jobs[i],
                           reclaims + if t.jobs[i].status == Running && Takes(t, e, i) then 1 else 0)
  {
  }

  lemma OldRowAttempts(t: Table, e: Event, i: nat, reclaims: nat)
    requires Kept(t) && i < |t.jobs| && WithinAttempts(t.jobs[i], reclaims)
    ensures i < |Step(t, e).jobs| && Step(t, e).jobs[i].id == t.jobs[i].id
    ensures WithinAttempts(Step(t, e).jobs[i],
                           reclaims + if t.jobs[i].status == Running && Takes(t, e, i) then 1 else 0)
  {
    StepShape(t, e);
    StepAttempts(t, e, i, reclaims);
  }

  lemma NewRowAttempts(t: Table, e: Event, i: nat, reclaims: nat)
    requires |t.jobs| <= i < |Step(t, e).jobs| && (e.EnqueueEvent? ==> Untried(e.job))
    requires Kept(t)
    ensures WithinAttempts(Step(t, e).jobs[i], reclaims)
  {
    StepShape(t, e);
    StepKeepsRows(t, e);
    assert RowKept(Step(t, e).jobs[i]);
  }

  lemma ReclaimsGrow(t: Table, events: seq<Event>, i: nat)
    requires events != []
    requires var u := Run(t, events[..|events| - 1]); DistinctIds(u.jobs) && i < |u.jobs|
    ensures var n := |events| - 1;
            var u := Run(t, events[..n]);
            Reclaims(t, events, u.jobs[i].id)
            == Reclaims(t, events[..n], u.jobs[i].id)
               + if u.jobs[i].status == Running && Takes(u, events[n], i) then 1 else 0
  {
    var u := Run(t, events[..|events| - 1]);
    assert Index(u.jobs, u.jobs[i].id) == i;
  }

  /** Attempts stay within the limit but for reclaims of expired leases, which are not counted
      against it; starting from no rows, so over every run. */
  lemma {:induction false} AttemptBound(tenants: set<string>, sources: set<(string, string)>, events: seq<Event>,
      i: nat)
    requires Ordinary(events)
    requires i < |Run(EmptyTable(tenants, sources), events).jobs|
    ensures var t := EmptyTable(tenants, sources);
            var j := Run(t, events).jobs[i];
            WithinAttempts(j, Reclaims(t, events, j.id))
  {
    var t := EmptyTable(tenants, sources);
    var n := |events| - 1;
    var u := Run(t, events[..n]);
    OrdinaryPrefix(events);
    RunKeeps(t, events[..n]);
    if i < |u.jobs| {
      AttemptBound(tenants, sources, events[..n], i);
      ReclaimsGrow(t, events, i);
      OldRowAttempts(u, events[n], i, Reclaims(t, events[..n], u.jobs[i].id));
    } else {
      NewRowAttempts(u, events[n], i, Reclaims(t, events, Run(t, events).jobs[i].id));
    }
  }

  lemma OrdinaryPrefix(events: seq<Event>)
    requires events != [] && Ordinary(events)
    ensures Ordinary(events[..|events| - 1])
    ensures events[|events| - 1].EnqueueEvent? ==> Untried(events[|events| - 1].job)
  {
  }

  /** Exactly what takes a row past its limit: a claim that reclaims it, running, at the limit. */
  predicate ReclaimsAtLimit(t: Table, e: Event, i: nat) {
    i < |t.jobs| && Takes(t, e, i) && t.jobs[i].status == Running && t.jobs[i].attempts == t.jobs[i].limit
  }

  lemma LimitIsPassedExactly(t: Table, e: Event, i: nat)
    requires Kept(t) && i < |t.jobs| && t.jobs[i].attempts <= t.jobs[i].limit
    ensures Step(t, e).jobs[i].attempts > Step(t, e).jobs[i].limit <==> ReclaimsAtLimit(t, e, i)
  {
    assert RowKept(t.jobs[i]);
  }

  /** Some claim of the run found the row running at its limit. */
  predicate ReclaimedAtLimit(t: Table, events: seq<Event>, i: nat) {
    events != [] &&
    var n := |events| - 1;
    ReclaimedAtLimit(t, events[..n], i) || ReclaimsAtLimit(Run(t, events[..n]), events[n], i)
  }

  lemma AttemptsNeverFall(t: Table, e: Event, i: nat)
    requires i < |t.jobs|
    ensures i < |Step(t, e).jobs| && t.jobs[i].attempts <= Step(t, e).jobs[i].attempts
    ensures Step(t, e).jobs[i].limit == t.jobs[i].limit
  {
    StepShape(t, e);
  }

  lemma {:induction false} NoReclaimBeforeBirth(t: Table, events: seq<Event>, i: nat)
    requires |Run(t, events).jobs| <= i
    ensures !ReclaimedAtLimit(t, events, i)
  {
    if events != [] {
      var n := |events| - 1;
      StepShape(Run(t, events[..n]), events[n]);
      NoReclaimBeforeBirth(t, events[..n], i);
    }
  }

  /** Over every run, a row's attempts are within its limit if and only if no claim reclaimed it at its
      limit. */
  lemma {:induction false} WithinLimitExactly(
      tenants: set<string>, sources: set<(string, string)>, events: seq<Event>, i: nat)
    requires Ordinary(events)
    requires i < |Run(EmptyTable(tenants, sources), events).jobs|
    ensures var t := EmptyTable(tenants, sources);
            Run(t, events).jobs[i].attempts <= Run(t, events).jobs[i].limit <==> !ReclaimedAtLimit(t, events, i)
  {
    var t := EmptyTable(tenants, sources);
    var n := |events| - 1;
    var u := Run(t, events[..n]);
    OrdinaryPrefix(events);
    RunKeeps(t, events[..n]);
    if i < |u.jobs| {
      WithinLimitExactly(tenants, sources, events[..n], i);
      AttemptsNeverFall(u, events[n], i);
      if u.jobs[i].attempts <= u.jobs[i].limit {
        LimitIsPassedExactly(u, events[n], i);
      }
    } else {
      NoReclaimBeforeBirth(t, events[..n], i);
      NewRowAttempts(u, events[n], i, 0);
    }
  }

  /** The exception is real: a row at its limit whose lease ran out is claimed once more. */
  lemma ReclaimPassesTheLimit(t: Table, i: nat, worker: string, now: int, seconds: int)
    requires LeaseAsked(worker, seconds) && Next(t, now) == Some(i)
    requires t.jobs[i].status == Running && t.jobs[i].attempts == t.jobs[i].limit
    ensures Claim(t, worker, now, seconds).Ok?
    ensures Claim(t, worker, now, seconds).value.0.jobs[i].attempts == t.jobs[i].limit + 1
    ensures Expired(t.jobs[i], now)
  {
  }

  /******* The stored table *******/

  class JobStore {
    var tenants: set<string>
    var sources: set<(string, string)>
    var jobs: seq<Job>

    constructor (tenants: set<string>, sources: set<(string, string)>)
      ensures Model() == EmptyTable(tenants, sources)
    {
      this.tenants, this.sources, jobs := tenants, sources, [];
    }

    function Model(): Table
      reads this
    {
      Table(tenants, sources, jobs)
    }

    method InsertJob(job: Job) returns (r: Result<Job, Error>)
      modifies this`jobs
      ensures match old(Insert(Model(), job))
              case Ok(done) => Model() == done.0 && r == Ok(done.1)
              case Err(e) => Model() == old(Model()) && r == Err(e)
    {
      if !exists x <- jobs :: Collides(x, job) {
        jobs := jobs + [job];
        return Ok(job);
      }
      var existing := First(jobs, InSlot(job), ByAge());
      if existing.None? {
        return Err(Unresolved);
      }
      r := Ok(jobs[existing.value]);
    }

    method EnqueueBackgroundJob(job: Job) returns (r: Result<Job, Error>)
      modifies this`jobs
      ensures Model() == Step(old(Model()), EnqueueEvent(job))
      ensures match old(Enqueue(Model(), job))
              case Ok(done) => Model() == done.0 && r == Ok(done.1)
              case Err(e) => Model() == old(Model()) && r == Err(e)
    {
      if !WellFormed(job) {
        return Err(BadCall);
      }
      if job.tenant !in tenants || (job.source.Some? && (job.tenant, job.source.value) !in sources) {
        return Err(NotFound);
      }
      r := InsertJob(job);
    }

    method ClaimBackgroundJob(worker: string, now: int, seconds: int) returns (r: Result<Option<Job>, Error>)
      modifies this`jobs
      ensures Model() == Step(old(Model()), ClaimEvent(worker, now, seconds))
      ensures match old(Claim(Model(), worker, now, seconds))
              case Ok(done) => Model() == done.0 && r == Ok(done.1)
              case Err(e) => Model() == old(Model()) && r == Err(e)
    {
      if Blank(worker) || !(5 <= seconds <= 3600) {
        return Err(BadCall);
      }
      var row := First(jobs, Claimable(now), BySchedule());
      if row.None? {
        return Ok(None);
      }
      var job := jobs[row.value];
      job := job.(status := Running, worker := Some(worker), attempts := job.attempts + 1);
      job := job.(lease := Some(now + seconds * SECOND), updated := now);
      jobs := jobs[row.value := job];
      r := Ok(Some(job));
    }

    method HeartbeatBackgroundJob(id: Id, worker: string, now: int, seconds: int) returns (beaten: bool)
      modifies this`jobs
      ensures Model() == Step(old(Model()), HeartbeatEvent(id, worker, now, seconds))
      ensures (Model(), beaten) == old(Heartbeat(Model(), id, worker, now, seconds))
    {
      var i := Index(jobs, id);
      beaten := i < |jobs| && HeldBy(jobs[i], worker);
      if beaten {
        jobs := jobs[i := jobs[i].(lease := Some(now + seconds * SECOND), updated := now)];
      }
    }

    method CompleteBackgroundJob(id: Id, worker: string, result: Document, now: int, more: Option<(Id, Document)>)
      returns (r: Result<Job, Error>)
      modifies this`jobs
      ensures Model() == Step(old(Model()), CompleteEvent(id, worker, result, now, more))
      ensures match old(Complete(Model(), id, worker, result, now, more))
              case Ok(done) => Model() == done && r == Ok(Done(old(jobs[Index(jobs, id)]), result, now))
              case Err(e) => Model() == old(Model()) && r == Err(e)
    {
      var i := Index(jobs, id);
      if i == |jobs| || !HeldBy(jobs[i], worker) {
        return Err(LeaseLost);
      }
      var before, job := jobs, jobs[i];
      job := job.(status := Succeeded, result := Some(result), error := None);
      job := job.(lease := None, worker := None, updated := now);
      jobs := jobs[i := job];
      if more.Some? {
        var next := InsertJob(Job(more.value.0, job.tenant, job.source, job.kind, more.value.1, Queued, 0, job.limit,
                                  now, None, None, None, None, now, now));
        if next.Err? {
          jobs := before;
          return Err(next.error);
        }
      }
      r := Ok(job);
    }

    method FailBackgroundJob(id: Id, worker: string, code: string, now: int, delay: int) returns (r: Result<Job, Error>)
      modifies this`jobs
      ensures Model() == Step(old(Model()), FailEvent(id, worker, code, now, delay))
      ensures match old(Fail(Model(), id, worker, code, now, delay))
              case Ok(done) => Model() == done && r == Ok(Failing(old(jobs[Index(jobs, id)]), code, now, delay))
              case Err(e) => Model() == old(Model()) && r == Err(e)
    {
      if !ValidCode(code) || !(0 <= delay <= 3600) {
        return Err(BadCall);
      }
      var i := Index(jobs, id);
      if i == |jobs| || !HeldBy(jobs[i], worker) {
        return Err(LeaseLost);
      }
      var job := jobs[i];
      if job.attempts < job.limit {
        job := job.(status := Queued, scheduled := now + delay * SECOND);
      } else {
        job := job.(status := Failed);
      }
      job := job.(result := None, error := Some(code), lease := None, worker := None, updated := now);
      jobs := jobs[i := job];
      r := Ok(job);
    }

    method CancelBackgroundJob(tenant: string, id: Id, now: int) returns (r: Result<Job, Error>)
      modifies this`jobs
      ensures Model() == Step(old(Model()), CancelEvent(tenant, id, now))
      ensures match old(Cancel(Model(), tenant, id, now))
              case Ok(done) => Model() == done && r == Ok(Dropped(old(jobs[Index(jobs, id)]), now))
              case Err(e) => Model() == old(Model()) && r == Err(e)
    {
      var i := Index(jobs, id);
      if i == |jobs| || jobs[i].tenant != tenant || jobs[i].status != Queued {
        return Err(NotFound);
      }
      var job := jobs[i].(status := Cancelled, lease := None, worker := None, updated := now);
      jobs := jobs[i := job];
      r := Ok(job);
    }
  }
}
