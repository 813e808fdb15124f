/**
 Request quotas: a fixed-window rate limit and a concurrency limit per scope. Admitted requests hold a
 lease that must be renewed before it expires.
 */
module Quota {
  import opened Wrappers

  type Scope = string
  type Lease = string
  type Key = (Scope, Lease)

  datatype Window = Window(number: int, count: nat)

  /** Leases map to the instant they expire. */
  datatype Table = Table(windows: map<Scope, Window>, leases: map<Key, int>)

  datatype Call = Call(
    scope: Scope, window: int, maxRequests: int, maxConcurrent: int, now: int, lease: Lease, expires: int)

  datatype Answer = Admitted | Busy | Limited

  datatype Error = BadCall | DuplicateLease

  const EMPTY := Table(map[], map[])

  /******* Operations *******/

  function Holders(leases: map<Key, int>, scope: Scope): set<Key> {
    set k <- leases | k.0 == scope
  }

  function Purged(leases: map<Key, int>, scope: Scope, now: int): map<Key, int> {
    map k <- leases | !(k.0 == scope && leases[k] <= now) :: leases[k]
  }

  predicate Asked(c: Call) {
    c.scope != "" && c.lease != "" && 0 <= c.window && 1 <= c.maxRequests && 1 <= c.maxConcurrent && c.now < c.expires
  }

  function WindowOf(t: Table, scope: Scope, number: int): Window {
    if scope in t.windows then t.windows[scope] else Window(number, 0)
  }

  predicate HasRoom(w: Window, number: int, maxRequests: int) {
    w.number < number || (w.number == number && w.count < maxRequests)
  }

  /** A refusal still keeps the opened window and the purge; an error keeps nothing. */
  function Acquire(t: Table, c: Call): Result<(Table, Answer), Error> {
    if !Asked(c) then Err(BadCall)
    else
      var w := WindowOf(t, c.scope, c.window);
      var cleaned := Table(t.windows[c.scope := w], Purged(t.leases, c.scope, c.now));
      if |Holders(cleaned.leases, c.scope)| >= c.maxConcurrent then Ok((cleaned, Busy))
      else if !HasRoom(w, c.window, c.maxRequests) then Ok((cleaned, Limited))
      else if (c.scope, c.lease) in cleaned.leases then Err(DuplicateLease)
      else
        var next := Window(c.window, if w.number == c.window then w.count + 1 else 1);
        Ok((Table(t.windows[c.scope := next], cleaned.leases[(c.scope, c.lease) := c.expires]), Admitted))
  }

  function Release(t: Table, scope: Scope, lease: Lease): Table {
    t.(leases := t.leases - {(scope, lease)})
  }

  predicate Alive(t: Table, k: Key, now: int) {
    k in t.leases && now < t.leases[k]
  }

  function Renew(t: Table, scopes: seq<Scope>, lease: Lease, now: int, expires: int): Result<(Table, bool), Error> {
    if expires <= now then Err(BadCall)
    else if exists s <- scopes :: !Alive(t, (s, lease), now) then Ok((t, false))
    else Ok((t.(leases := map k <- t.leases :: if k.1 == lease && k.0 in scopes then expires else t.leases[k]), true))
  }

  /******* Runs *******/

  datatype Event =
    | AcquireEvent(call: Call)
    | ReleaseEvent(scope: Scope, lease: Lease)
    | RenewEvent(scopes: seq<Scope>, lease: Lease, now: int, expires: int)

  function Step(t: Table, e: Event): Table {
    match e
    case AcquireEvent(c) => (match Acquire(t, c) case Ok(r) => r.0 case Err(_) => t)
    case ReleaseEvent(scope, lease) => Release(t, scope, lease)
    case RenewEvent(scopes, lease, now, expires) =>
      (match Renew(t, scopes, lease, now, expires) case Ok(r) => r.0 case Err(_) => t)
  }

  function Run(t: Table, events: seq<Event>): Table {
    if events == [] then t else Step(Run(t, events[..|events| - 1]), events[|events| - 1])
  }

  datatype Limits = Limits(requests: int, concurrent: int)

  /** Every acquisition of a scope asks for the same limits. */
  predicate Fixed(events: seq<Event>, limits: Scope -> Limits) {
    forall e <- events :: e.AcquireEvent? ==>
                            Limits(e.call.maxRequests, e.call.maxConcurrent) == limits(e.call.scope)
  }

  predicate Admits(t: Table, e: Event, scope: Scope, number: int) {
    e.AcquireEvent? && e.call.scope == scope && e.call.window == number
    && Acquire(t, e.call).Ok? && Acquire(t, e.call).value.1 == Admitted
  }

  /** How many requests of this scope and window a run admits. */
  function Admissions(t: Table, events: seq<Event>, scope: Scope, number: int): nat {
    if events == [] then 0
    else
      var n := |events| - 1;
      Admissions(t, events[..n], scope, number)
        + if Admits(Run(t, events[..n]), events[n], scope, number) then 1 else 0
  }

  lemma HoldersAfterStep(t: Table, e: Event, scope: Scope)
    ensures Holders(Step(t, e).leases, scope) <= Holders(t.leases, scope)
            || (e.AcquireEvent? && e.call.scope == scope
                && |Holders(Step(t, e).leases, scope)| <= e.call.maxConcurrent)
  {
    if e.AcquireEvent? && e.call.scope == scope && Admits(t, e, scope, e.call.window) {
      AdmittedHolders(t, e.call);
    }
  }

  lemma AdmittedHolders(t: Table, c: Call)
    requires Acquire(t, c).Ok? && Acquire(t, c).value.1 == Admitted
    ensures |Holders(Acquire(t, c).value.0.leases, c.scope)| <= c.maxConcurrent
  {
    var cleaned := Purged(t.leases, c.scope, c.now);
    assert Holders(cleaned[(c.scope, c.lease) := c.expires], c.scope) == Holders(cleaned, c.scope)
        + {(c.scope, c.lease)};
  }

  /** With fixed limits a scope never holds more leases than its concurrency limit. */
  lemma {:induction false} ConcurrencyBound(events: seq<Event>, limits: Scope -> Limits, scope: Scope)
    requires Fixed(events, limits) && 0 <= limits(scope).concurrent
    ensures |Holders(Run(EMPTY, events).leases, scope)| <= limits(scope).concurrent
  {
    if events != [] {
      var n := |events| - 1;
      ConcurrencyBound(events[..n], limits, scope);
      var t := Run(EMPTY, events[..n]);
      HoldersAfterStep(t, events[n], scope);
      assert events[n] in events;
      if Holders(Step(t, events[n]).leases, scope) <= Holders(t.leases, scope) {
        SmallerSet(Holders(Step(t, events[n]).leases, scope), Holders(t.leases, scope));
      }
    }
  }

  lemma {:induction false} SmallerSet<T>(a: set<T>, b: set<T>)
    requires a <= b
    ensures |a| <= |b|
  {
    assert b == a + (b - a);
  }

  /** The stored counter is exact for the stored window, and windows never go back. */
  lemma {:induction false} CounterIsExact(events: seq<Event>, limits: Scope -> Limits, scope: Scope, number: int)
    requires Fixed(events, limits) && 0 <= limits(scope).requests
    ensures var t := Run(EMPTY, events);
            var admitted := Admissions(EMPTY, events, scope, number);
            && (scope !in t.windows || t.windows[scope].number < number ==> admitted == 0)
            && (scope in t.windows && t.windows[scope].number == number ==> admitted == t.windows[scope].count)
            && admitted <= limits(scope).requests
  {
    if events != [] {
      var n := |events| - 1;
      CounterIsExact(events[..n], limits, scope, number);
      assert events[n] in events;
    }
  }

  /** With fixed limits a scope admits at most its rate limit in any one window. */
  lemma RateBound(events: seq<Event>, limits: Scope -> Limits, scope: Scope, number: int)
    requires Fixed(events, limits) && 0 <= limits(scope).requests
    ensures Admissions(EMPTY, events, scope, number) <= limits(scope).requests
  {
    CounterIsExact(events, limits, scope, number);
  }

  /** The leases of the scope that are still good at this instant. */
  function InUse(t: Table, scope: Scope, now: int): set<Key> {
    set k <- t.leases | k.0 == scope && now < t.leases[k]
  }

  /** Which requests are malformed; and of the others, which are turned away because as many as the limit
      hold a lease, which because the window is past or full, and which because they hold the lease already. */
  lemma AdmissionRule(t: Table, c: Call)
    ensures Acquire(t, c) == Err(BadCall)
            <==> || c.scope == "" || c.lease == "" || c.window < 0 || c.maxRequests < 1 || c.maxConcurrent < 1
                 || c.expires <= c.now
    ensures Acquire(t, c) != Err(BadCall) ==>
              var busy := |InUse(t, c.scope, c.now)| >= c.maxConcurrent;
              var full := c.scope in t.windows
                          && var w := t.windows[c.scope];
                             c.window < w.number || (w.number == c.window && w.count >= c.maxRequests);
              var held := (c.scope, c.lease) in InUse(t, c.scope, c.now);
              && (Acquire(t, c) == Err(DuplicateLease) <==> !busy && !full && held)
              && (Acquire(t, c).Ok? ==>
                    Acquire(t, c).value.1 == if busy then Busy else if full then Limited else Admitted)
  {
    assert Holders(Purged(t.leases, c.scope, c.now), c.scope) == InUse(t, c.scope, c.now);
  }

  /** What an answered request leaves: the scope's expired leases go, its window is opened if it had none,
      and if it is admitted it holds its lease and counts once in its window. */
  lemma AdmissionEffect(t: Table, c: Call)
    requires Acquire(t, c).Ok?
    ensures var (u, answer) := Acquire(t, c).value;
            var key := (c.scope, c.lease);
            && u.leases
               == (map k <- t.leases | k.0 != c.scope || c.now < t.leases[k] :: t.leases[k])
                  + (if answer == Admitted then map[key := c.expires] else map[])
            && u.windows
               == t.windows[c.scope :=
                    if answer == Admitted then
                      Window(c.window,
                             if c.scope in t.windows && t.windows[c.scope].number == c.window
                             then t.windows[c.scope].count + 1 else 1)
                    else if c.scope in t.windows then t.windows[c.scope] else Window(c.window, 0)]
  {
  }

  /******* Renewal *******/

  /** A renewal extends every named lease or none, and only when all of them are still alive. */
  lemma RenewalIsAllOrNothing(t: Table, scopes: seq<Scope>, lease: Lease, now: int, expires: int)
    ensures Renew(t, scopes, lease, now, expires) == Err(BadCall) <==> expires <= now
    ensures now < expires ==>
              Renew(t, scopes, lease, now, expires).Ok?
    ensures now < expires ==>
            var (u, renewed) := Renew(t, scopes, lease, now, expires).value;
            && (renewed <==> forall s <- scopes :: (s, lease) in t.leases && now < t.leases[(s, lease)])
            && u.leases.Keys == t.leases.Keys && u.windows == t.windows
            && (forall s <- scopes :: renewed ==> u.leases[(s, lease)] == expires)
            && (forall k <- t.leases :: !renewed || k.1 != lease || k.0 !in scopes ==> u.leases[k] == t.leases[k])
  {
  }

  predicate NotBefore(e: Event, now: int) {
    match e
    case AcquireEvent(c) => now <= c.now
    case ReleaseEvent(_, _) => true
    case RenewEvent(_, _, at, _) => now <= at
  }

  predicate TakesLease(e: Event, k: Key) {
    e.AcquireEvent? && (e.call.scope, e.call.lease) == k
  }

  /** An expired lease is never revived: by clocks that do not go back, it stays as it is until it is
      dropped, and comes back only by a new acquisition. */
  lemma {:induction false} ExpiredStaysExpired(t: Table, events: seq<Event>, k: Key, now: int)
    requires !Alive(t, k, now)
    requires forall e <- events :: NotBefore(e, now) && !TakesLease(e, k)
    ensures !Alive(Run(t, events), k, now)
    ensures k in Run(t, events).leases ==> k in t.leases && Run(t, events).leases[k] == t.leases[k]
  {
    if events != [] {
      var n := |events| - 1;
      ExpiredStaysExpired(t, events[..n], k, now);
      var u, e := Run(t, events[..n]), events[n];
      assert e in events;
      if e.RenewEvent? && k.1 == e.lease && k.0 in e.scopes {
        assert k == (k.0, e.lease) && !Alive(u, k, e.now);
      }
    }
  }

  predicate Before(e: Event, deadline: int) {
    match e
    case AcquireEvent(c) => c.now < deadline
    case ReleaseEvent(_, _) => true
    case RenewEvent(_, _, _, expires) => deadline <= expires
  }

  /** Until its deadline a lease survives everyone's acquisitions and renewals; only its release ends it. */
  lemma {:induction false} AliveUntilDeadline(t: Table, events: seq<Event>, k: Key, deadline: int)
    requires k in t.leases && deadline <= t.leases[k]
    requires forall e <- events :: Before(e, deadline) && e != ReleaseEvent(k.0, k.1)
    ensures k in Run(t, events).leases && deadline <= Run(t, events).leases[k]
  {
    if events != [] {
      var n := |events| - 1;
      AliveUntilDeadline(t, events[..n], k, deadline);
      assert events[n] in events;
    }
  }

  /******* Acquiring several scopes *******/

  datatype Outcome = Allowed | Refused(scope: Scope, reason: Answer) | Raised(error: Error)

  predicate OneRequest(calls: seq<Call>, lease: Lease, now: int) {
    && (forall c <- calls :: c.lease == lease && c.now == now)
    && (forall i, j :: 0 <= i < j < |calls| ==> calls[i].scope != calls[j].scope)
  }

  /** No lease is lost except those that had expired. */
  predicate OnlyExpiredLost(t: Table, u: Table, lease: Lease, now: int) {
    && (forall k <- u.leases :: k.1 != lease ==> k in t.leases && u.leases[k] == t.leases[k])
    && (forall k <- t.leases :: k.1 != lease && now < t.leases[k] ==> k in u.leases)
  }

  /** Under its own lease a request holds exactly these calls' scopes. */
  predicate Holds(t: Table, calls: seq<Call>, lease: Lease) {
    && (forall c <- calls :: (c.scope, lease) in t.leases && t.leases[(c.scope, lease)] == c.expires)
    && (forall k <- t.leases :: k.1 == lease ==> exists c <- calls :: c.scope == k.0)
  }

  lemma NotHeldYet(t: Table, calls: seq<Call>, i: nat, lease: Lease, now: int)
    requires i < |calls| && OneRequest(calls, lease, now) && Holds(t, calls[..i], lease)
    ensures (calls[i].scope, lease) !in t.leases && calls[i].lease == lease && calls[i].now == now
  {
  }

  lemma AcquireOneMore(t: Table, calls: seq<Call>, i: nat, lease: Lease, now: int)
    requires i < |calls| && OneRequest(calls, lease, now) && Holds(t, calls[..i], lease)
    ensures Acquire(t, calls[i]) != Err(DuplicateLease)
    ensures Acquire(t, calls[i]).Ok? ==>
              && OnlyExpiredLost(t, Acquire(t, calls[i]).value.0, lease, now)
              && Holds(Acquire(t, calls[i]).value.0,
                       if Acquire(t, calls[i]).value.1 == Admitted then calls[..i + 1] else calls[..i], lease)
  {
    NotHeldYet(t, calls, i, lease, now);
    var c := calls[i];
    var cleaned := t.(leases := Purged(t.leases, c.scope, c.now));
    assert Holds(cleaned, calls[..i], lease) by {
      forall x | x in calls[..i] ensures (x.scope, lease) in cleaned.leases
          && cleaned.leases[(x.scope, lease)] == x.expires {
        assert (x.scope, lease) in t.leases && x.scope != c.scope;
      }
    }
    if Acquire(t, c).Ok? && Acquire(t, c).value.1 == Admitted {
      assert calls[..i + 1] == calls[..i] + [c];
      OneMoreHeld(cleaned, calls[..i], c, lease);
    }
  }

  lemma OneMoreHeld(t: Table, held: seq<Call>, c: Call, lease: Lease)
    requires Holds(t, held, lease) && (c.scope, lease) !in t.leases && c.lease == lease
    ensures Holds(t.(leases := t.leases[(c.scope, lease) := c.expires]), held + [c], lease)
  {
  }

  lemma OneLessHeld(t: Table, held: seq<Call>, i: nat, lease: Lease)
    requires i < |held| && Holds(t, held[..i + 1], lease)
    requires forall j :: 0 <= j < i ==> held[j].scope != held[i].scope
    ensures Holds(Release(t, held[i].scope, lease), held[..i], lease)
  {
    assert held[..i + 1] == held[..i] + [held[i]];
    forall c | c in held[..i] ensures c in held[..i + 1] && c.scope != held[i].scope {}
  }

  /** Another request's event, before the deadline if it cleans up. */
  predicate Foreign(e: Event, lease: Lease, deadline: int) {
    match e
    case AcquireEvent(c) => c.lease != lease && c.now < deadline
    case ReleaseEvent(_, l) => l != lease
    case RenewEvent(_, l, _, _) => l != lease
  }

  /** Leases under this lease id are exactly what they were. */
  predicate SameOwn(t: Table, u: Table, lease: Lease) {
    && (forall k <- t.leases :: k.1 == lease ==> k in u.leases && u.leases[k] == t.leases[k])
    && (forall k <- u.leases :: k.1 == lease ==> k in t.leases)
  }

  /** Others' events leave a request's leases alone until the first of them expires. */
  lemma {:induction false} ForeignEventsKeepOwn(t: Table, events: seq<Event>, lease: Lease, deadline: int)
    requires forall e <- events :: Foreign(e, lease, deadline)
    requires forall k <- t.leases :: k.1 == lease ==> deadline <= t.leases[k]
    ensures SameOwn(t, Run(t, events), lease)
  {
    if events != [] {
      var n := |events| - 1;
      ForeignEventsKeepOwn(t, events[..n], lease, deadline);
      assert events[n] in events;
    }
  }

  lemma HoldsStill(t: Table, u: Table, calls: seq<Call>, lease: Lease)
    requires Holds(t, calls, lease) && SameOwn(t, u, lease)
    ensures Holds(u, calls, lease)
  {
    forall k | k in u.leases && k.1 == lease ensures exists c <- calls :: c.scope == k.0 {
      assert k in t.leases;
    }
  }

  /** How the acquisition of several scopes ends, call by call, with what others do before each. */
  function Decided(t: Table, calls: seq<Call>, i: nat, others: nat -> seq<Event>): Outcome
    requires i <= |calls|
    decreases |calls| - i
  {
    if i == |calls| then Allowed
    else
      match Acquire(Run(t, others(i)), calls[i])
      case Err(e) => Raised(e)
      case Ok((u, answer)) =>
        if answer == Admitted then Decided(u, calls, i + 1, others) else Refused(calls[i].scope, answer)
  }

  function AnswerTo(t: Table, c: Call): Result<Answer, Error> {
    match Acquire(t, c)
    case Err(e) => Err(e)
    case Ok((_, answer)) => Ok(answer)
  }

  /** The tables say the same of the scope. */
  predicate SameScope(t: Table, u: Table, scope: Scope) {
    && (scope in t.windows <==> scope in u.windows)
    && (scope in t.windows ==> t.windows[scope] == u.windows[scope])
    && (forall k <- t.leases :: k.0 == scope ==> k in u.leases && u.leases[k] == t.leases[k])
    && (forall k <- u.leases :: k.0 == scope ==> k in t.leases)
  }

  /** An answer depends on nothing but the scope, and leaves every other scope alone. */
  lemma AcquireIsLocal(t: Table, u: Table, c: Call, other: Scope)
    ensures SameScope(t, u, c.scope) ==> AnswerTo(t, c) == AnswerTo(u, c)
    ensures other != c.scope && Acquire(t, c).Ok? ==> SameScope(t, Acquire(t, c).value.0, other)
  {
    if SameScope(t, u, c.scope) {
      assert InUse(t, c.scope, c.now) == InUse(u, c.scope, c.now);
      AdmissionRule(t, c);
      AdmissionRule(u, c);
    }
  }

  /** The first of these calls that is not admitted, each asked on its own. */
  predicate FirstRefusal(t: Table, calls: seq<Call>, i: nat) {
    i < |calls| && AnswerTo(t, calls[i]) != Ok(Admitted)
    && forall j :: 0 <= j < i ==> AnswerTo(t, calls[j]) == Ok(Admitted)
  }

  /** Alone, a request is allowed exactly when each of its scopes would admit it by itself; otherwise it is
      refused, or raises, as the first that would not. */
  lemma AloneDecides(t: Table, calls: seq<Call>, lease: Lease, now: int, others: nat -> seq<Event>)
    requires OneRequest(calls, lease, now) && forall i: nat :: others(i) == []
    ensures var outcome := Decided(t, calls, 0, others);
            && (outcome.Allowed? <==> forall c <- calls :: AnswerTo(t, c) == Ok(Admitted))
            && forall i: nat :: FirstRefusal(t, calls, i) ==>
                 outcome == match AnswerTo(t, calls[i])
                            case Ok(why) => Refused(calls[i].scope, why)
                            case Err(e) => Raised(e)
  {
    AloneDecidesFrom(t, t, calls, 0, lease, now, others);
    if Decided(t, calls, 0, others).Allowed? {
      forall c | c in calls ensures AnswerTo(t, c) == Ok(Admitted) {
        var i :| 0 <= i < |calls| && calls[i] == c;
      }
    } else {
      var j: nat :| FirstRefusal(t, calls, j);
      assert calls[j] in calls;
      forall i: nat | FirstRefusal(t, calls, i) ensures i == j {
      }
    }
  }

  lemma {:induction false} AloneDecidesFrom(
      t: Table, u: Table, calls: seq<Call>, i: nat, lease: Lease, now: int, others: nat -> seq<Event>)
    requires OneRequest(calls, lease, now) && (forall k: nat :: others(k) == []) && i <= |calls|
    requires forall j :: 0 <= j < i ==> AnswerTo(t, calls[j]) == Ok(Admitted)
    requires forall j :: i <= j < |calls| ==> SameScope(t, u, calls[j].scope)
    ensures var outcome := Decided(u, calls, i, others);
            if outcome.Allowed? then forall j :: 0 <= j < |calls| ==> AnswerTo(t, calls[j]) == Ok(Admitted)
            else
              exists j: nat :: FirstRefusal(t, calls, j)
                && outcome == match AnswerTo(t, calls[j])
                              case Ok(why) => Refused(calls[j].scope, why)
                              case Err(e) => Raised(e)
    decreases |calls| - i
  {
    if i < |calls| {
      assert Run(u, others(i)) == u;
      AcquireIsLocal(t, u, calls[i], calls[i].scope);
      if AnswerTo(u, calls[i]) == Ok(Admitted) {
        var v := Acquire(u, calls[i]).value.0;
        forall j | i + 1 <= j < |calls| ensures SameScope(t, v, calls[j].scope) {
          AcquireIsLocal(u, u, calls[i], calls[j].scope);
          SameScopeTransitive(t, u, v, calls[j].scope);
        }
        AloneDecidesFrom(t, v, calls, i + 1, lease, now, others);
      } else {
        assert FirstRefusal(t, calls, i);
      }
    }
  }

  lemma SameScopeTransitive(t: Table, u: Table, v: Table, scope: Scope)
    requires SameScope(t, u, scope) && SameScope(u, v, scope)
    ensures SameScope(t, v, scope)
  {
  }

  lemma LostNothingAlive(t: Table, u: Table, v: Table, lease: Lease, now: int)
    requires OnlyExpiredLost(t, u, lease, now) && OnlyExpiredLost(u, v, lease, now)
    ensures OnlyExpiredLost(t, v, lease, now)
  {
  }

  class RequestQuotas {
    var windows: map<Scope, Window>
    var leases: map<Key, int>

    constructor ()
      ensures Model() == EMPTY
    {
      windows, leases := map[], map[];
    }

    function Model(): Table
      reads this
    {
      Table(windows, leases)
    }

    method TryAcquireRequestQuota(c: Call) returns (r: Result<Answer, Error>)
      modifies this
      ensures match old(Acquire(Model(), c))
              case Ok(done) => Model() == done.0 && r == Ok(done.1)
              case Err(e) => Model() == old(Model()) && r == Err(e)
    {
      if c.scope == "" || c.lease == "" || c.window < 0 || c.maxRequests < 1 || c.maxConcurrent < 1 {
        return Err(BadCall);
      }
      if c.expires <= c.now {
        return Err(BadCall);
      }
      var savedWindows, savedLeases := windows, leases;
      if c.scope !in windows {
        windows := windows[c.scope := Window(c.window, 0)];
      }
      leases := Purged(leases, c.scope, c.now);
      assert windows == savedWindows[c.scope := WindowOf(old(Model()), c.scope, c.window)];
      if |Holders(leases, c.scope)| >= c.maxConcurrent {
        return Ok(Busy);
      }
      var w := windows[c.scope];
      if !(w.number < c.window || (w.number == c.window && w.count < c.maxRequests)) {
        return Ok(Limited);
      }
      if (c.scope, c.lease) in leases {
        windows, leases := savedWindows, savedLeases;
        return Err(DuplicateLease);
      }
      windows := windows[c.scope := Window(c.window, if w.number == c.window then w.count + 1 else 1)];
      leases := leases[(c.scope, c.lease) := c.expires];
      r := Ok(Admitted);
    }

    method ReleaseRequestQuota(scope: Scope, lease: Lease)
      modifies this`leases
      ensures Model() == Release(old(Model()), scope, lease)
      ensures forall k :: k in leases <==> k in old(leases) && k != (scope, lease)
      ensures forall k <- leases :: leases[k] == old(leases)[k]
    {
      leases := leases - {(scope, lease)};
    }

    method RenewRequestQuota(scopes: seq<Scope>, lease: Lease, now: int, expires: int) returns (r: Result<bool, Error>)
      modifies this`leases
      ensures match old(Renew(Model(), scopes, lease, now, expires))
              case Ok(done) => Model() == done.0 && r == Ok(done.1)
              case Err(e) => Model() == old(Model()) && r == Err(e)
    {
      if expires <= now {
        return Err(BadCall);
      }
      for i := 0 to |scopes|
        invariant forall j :: 0 <= j < i ==> Alive(Model(), (scopes[j], lease), now)
      {
        if (scopes[i], lease) !in leases || leases[(scopes[i], lease)] <= now {
          assert scopes[i] in scopes && !Alive(Model(), (scopes[i], lease), now);
          return Ok(false);
        }
      }
      for i := 0 to |scopes|
        invariant leases.Keys == old(leases.Keys)
        invariant forall k <- leases :: leases[k] == if k.1 == lease && k.0 in scopes[..i] then expires
            else old(leases)[k]
      {
        assert Alive(old(Model()), (scopes[i], lease), now);
        leases := leases[(scopes[i], lease) := expires];
      }
      assert scopes[..|scopes|] == scopes;
      r := Ok(true);
    }

    /** What other instances do meanwhile. */
    method Perform(events: seq<Event>)
      modifies this
      ensures Model() == Run(old(Model()), events)
    {
      for i := 0 to |events|
        invariant Model() == Run(old(Model()), events[..i])
      {
        assert events[..i + 1][..i] == events[..i];
        ghost var before := Model();
        match events[i]
        case AcquireEvent(c) =>
          var answer := TryAcquireRequestQuota(c);
        case ReleaseEvent(scope, lease) =>
          ReleaseRequestQuota(scope, lease);
        case RenewEvent(scopes, lease, now, expires) =>
          var answer := RenewRequestQuota(scopes, lease, now, expires);
        assert Model() == Step(before, events[i]);
      }
      assert events[..|events|] == events;
    }

    /** The quota manager's acquisition of several scopes under one new lease. Each call is a transaction of
        its own; others(i) is what other instances do before call i and before giving back call i. As long
        as their clocks stay before the request's own expiry, afterwards the request holds all of the
        scopes or none. Alone it costs nobody a lease that was alive. */
    method AcquireAll(calls: seq<Call>, lease: Lease, now: int, others: nat -> seq<Event>, deadline: int)
      returns (outcome: Outcome)
      requires OneRequest(calls, lease, now)
      requires forall k <- leases :: k.1 != lease
      requires forall c <- calls :: deadline <= c.expires
      requires forall i: nat, e: Event :: e in others(i) ==> Foreign(e, lease, deadline)
      modifies this
      ensures Holds(Model(), if outcome.Allowed? then calls else [], lease)
      ensures (forall i: nat :: others(i) == []) ==> OnlyExpiredLost(old(Model()), Model(), lease, now)
      ensures outcome.Refused? ==> outcome.reason != Admitted && exists c <- calls :: c.scope == outcome.scope
      ensures outcome.Raised? ==> outcome.error == BadCall && exists c <- calls :: !Asked(c)
      ensures outcome == Decided(old(Model()), calls, 0, others)
    {
      ghost var alone := forall i: nat :: others(i) == [];
      for i := 0 to |calls|
        invariant alone ==> OnlyExpiredLost(old(Model()), Model(), lease, now)
        invariant Holds(Model(), calls[..i], lease)
        invariant Decided(old(Model()), calls, 0, others) == Decided(Model(), calls, i, others)
      {
        ghost var before := Model();
        var answer := AcquireNext(calls, i, lease, now, others, deadline);
        if alone {
          LostNothingAlive(old(Model()), before, Model(), lease, now);
        }
        if answer != Ok(Admitted) {
          ghost var refused := Model();
          ReleaseKeys(calls[..i], lease, now, others, deadline);
          if alone {
            LostNothingAlive(old(Model()), refused, Model(), lease, now);
          }
          assert calls[i] in calls;
          return if answer.Ok? then Refused(calls[i].scope, answer.value) else Raised(answer.error);
        }
      }
      assert calls[..|calls|] == calls;
      outcome := Allowed;
    }

    method AcquireNext(calls: seq<Call>, i: nat, lease: Lease, now: int, others: nat -> seq<Event>, deadline: int)
      returns (answer: Result<Answer, Error>)
      requires i < |calls| && OneRequest(calls, lease, now) && Holds(Model(), calls[..i], lease)
      requires forall c <- calls :: deadline <= c.expires
      requires forall e <- others(i) :: Foreign(e, lease, deadline)
      modifies this
      ensures Holds(Model(), if answer == Ok(Admitted) then calls[..i + 1] else calls[..i], lease)
      ensures others(i) == [] ==> OnlyExpiredLost(old(Model()), Model(), lease, now)
      ensures answer.Err? ==> answer.error == BadCall && !Asked(calls[i])
      ensures Decided(old(Model()), calls, i, others)
              == if answer == Ok(Admitted) then Decided(Model(), calls, i + 1, others)
                 else if answer.Ok? then Refused(calls[i].scope, answer.value) else Raised(answer.error)
    {
      Meanwhile(others(i), calls[..i], lease, deadline);
      AcquireOneMore(Model(), calls, i, lease, now);
      answer := TryAcquireRequestQuota(calls[i]);
    }

    method Meanwhile(events: seq<Event>, held: seq<Call>, lease: Lease, deadline: int)
      requires forall e <- events :: Foreign(e, lease, deadline)
      requires Holds(Model(), held, lease) && forall c <- held :: deadline <= c.expires
      modifies this
      ensures Model() == Run(old(Model()), events) && Holds(Model(), held, lease)
    {
      ghost var before := Model();
      Perform(events);
      ForeignEventsKeepOwn(before, events, lease, deadline);
      HoldsStill(before, Model(), held, lease);
    }

    /** In reverse order of acquisition. */
    method ReleaseKeys(held: seq<Call>, lease: Lease, now: int, others: nat -> seq<Event>, deadline: int)
      requires Holds(Model(), held, lease) && forall c <- held :: deadline <= c.expires
      requires forall i, j :: 0 <= i < j < |held| ==> held[i].scope != held[j].scope
      requires forall i: nat, e: Event :: e in others(i) ==> Foreign(e, lease, deadline)
      modifies this
      ensures Holds(Model(), [], lease)
      ensures (forall i: nat :: others(i) == []) ==> OnlyExpiredLost(old(Model()), Model(), lease, now)
    {
      ghost var alone := forall i: nat :: others(i) == [];
      assert held[..|held|] == held;
      for i := |held| downto 0
        invariant Holds(Model(), held[..i], lease)
        invariant alone ==> OnlyExpiredLost(old(Model()), Model(), lease, now)
      {
        Meanwhile(others(i), held[..i + 1], lease, deadline);
        ghost var before := Model();
        ReleaseRequestQuota(held[i].scope, lease);
        OneLessHeld(before, held, i, lease);
      }
    }
  }
}
