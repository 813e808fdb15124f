/**
 The LLM budget ledger: money is reserved before a provider is called and settled, released or
 reconciled afterwards. The balance is never stored; it is summed from the two tables every time.
 */
module BudgetLedger {
  import opened Wrappers
  import opened Sums
  import opened IsoTime
  import opened Text
  import Validity

  type Id = string

  datatype Account = Account(tenant: string, currency: string)

  datatype Phase = Reserved | InFlight | Uncertain | Settled | Released

  /** period is the UTC month of `created`; updated counts seconds. */
  datatype Reservation = Reservation(
    id: Id, account: Account, provider: string, model: string, pricing: string, amount: real,
    created: Instant, period: Month, phase: Phase, actual: Option<real>, usageId: Option<Id>, updated: int)

  /** created is the instant; wall is the clock reading its stored text shows, in the writer's zone. */
  datatype Usage = Usage(
    id: Id, tenant: string, currency: Option<string>, provider: string, model: string, purpose: string,
    inputTokens: nat, cachedTokens: nat, outputTokens: nat,
    pricing: Option<string>, estimated: Option<real>, actual: Option<real>, created: Instant, wall: Instant)

  datatype Ledger = Ledger(
    reservations: seq<Reservation>, usages: seq<Usage>, budgets: map<Account, seq<Validity.Entry>>)

  datatype Error = BadCall | NotFound | Unavailable | Conflict | Duplicate

  const HOUR := 3600

  /******* The balance *******/

  predicate Live(r: Reservation) {
    r.phase == Reserved || r.phase == InFlight || r.phase == Uncertain
  }

  predicate In(r: Reservation, a: Account, m: Month) {
    r.account == a && r.period == m
  }

  predicate Charged(u: Usage, a: Account, m: Month) {
    u.tenant == a.tenant && u.currency == Some(a.currency) && MonthOf(u.wall) == m
  }

  function Cost(actual: Option<real>, otherwise: Option<real>): real {
    if actual.Some? then actual.value else if otherwise.Some? then otherwise.value else 0.0
  }

  function UsageCost(u: Usage): real {
    Cost(u.actual, u.estimated)
  }

  function Amount(r: Reservation): real {
    Cost(r.actual, Some(r.amount))
  }

  function Used(a: Account, m: Month): Usage -> real {
    u => if Charged(u, a, m) then UsageCost(u) else 0.0
  }

  function Held(a: Account, m: Month): Reservation -> real {
    r => if In(r, a, m) && Live(r) then Amount(r) else 0.0
  }

  function HeldUncertain(a: Account, m: Month): Reservation -> real {
    r => if In(r, a, m) && r.phase == Uncertain then Amount(r) else 0.0
  }

  /** Settled by an operator, so no usage event carries the cost. */
  function Reconciled(a: Account, m: Month): Reservation -> real {
    r => if In(r, a, m) && r.phase == Settled && r.usageId.None? then Amount(r) else 0.0
  }

  datatype Balance = Balance(spent: real, reserved: real, uncertain: real, reconciled: real)

  function BalanceOf(l: Ledger, a: Account, m: Month): Balance {
    Balance(SumBy(l.usages, Used(a, m)) + SumBy(l.reservations, Reconciled(a, m)),
            SumBy(l.reservations, Held(a, m)),
            SumBy(l.reservations, HeldUncertain(a, m)),
            SumBy(l.reservations, Reconciled(a, m)))
  }

  function BudgetAt(l: Ledger, a: Account, at: Instant): Option<Validity.Entry> {
    if a in l.budgets then Validity.Effective(l.budgets[a], at) else None
  }

  /******* Operations *******/

  /** Position of the row with this key, or the number of rows. */
  function Find(rows: seq<Reservation>, tenant: string, id: Id): (i: nat)
    ensures i <= |rows|
    ensures i < |rows| ==> rows[i].id == id && rows[i].account.tenant == tenant
    ensures i == |rows| ==> forall k :: 0 <= k < |rows| ==> !(rows[k].id == id && rows[k].account.tenant == tenant)
  {
    if rows == [] then 0
    else if rows[0].id == id && rows[0].account.tenant == tenant then 0
    else
      1 + Find(rows[1..], tenant, id)
  }

  predicate UsageKnown(l: Ledger, id: Id) {
    (exists u <- l.usages :: u.id == id) || (exists r <- l.reservations :: r.usageId == Some(id))
  }

  /** The insert leaves the usage event's column empty. */
  function Stored(r: Reservation): Reservation {
    r.(usageId := None)
  }

  function Reserve(l: Ledger, r: Reservation): Result<Ledger, Error> {
    if r.phase != Reserved || r.actual.Some? || r.amount < 0.0 then Err(BadCall)
    else if r.period != MonthOf(r.created) then Err(BadCall)
    else
      var budget := BudgetAt(l, r.account, r.created);
      var balance := BalanceOf(l, r.account, r.period);
      if budget.Some? && balance.spent + balance.reserved + r.amount > budget.value.amount then Err(Unavailable)
      else if exists x <- l.reservations :: x.id == r.id then Err(Duplicate)
      else Ok(l.(reservations := l.reservations + [Stored(r)]))
  }

  function Start(l: Ledger, tenant: string, id: Id, now: int): Result<Ledger, Error> {
    var i := Find(l.reservations, tenant, id);
    if i == |l.reservations| || l.reservations[i].phase != Reserved then Err(Conflict)
    else Ok(l.(reservations := l.reservations[i := l.reservations[i].(phase := InFlight, updated := now)]))
  }

  function MarkUncertain(l: Ledger, tenant: string, id: Id, now: int): Ledger {
    var i := Find(l.reservations, tenant, id);
    if i == |l.reservations| || (l.reservations[i].phase != Reserved && l.reservations[i].phase != InFlight) then l
    else l.(reservations := l.reservations[i := l.reservations[i].(phase := Uncertain, updated := now)])
  }

  function Release(l: Ledger, tenant: string, id: Id, now: int): Result<Ledger, Error> {
    var i := Find(l.reservations, tenant, id);
    if i == |l.reservations| then Err(NotFound)
    else if l.reservations[i].phase != Reserved && l.reservations[i].phase != InFlight then Ok(l)
    else
      var r := l.reservations[i].(phase := Released, actual := Some(0.0), updated := now);
      Ok(l.(reservations := l.reservations[i := r]))
  }

  predicate Matches(r: Reservation, u: Usage) {
    && u.tenant == r.account.tenant && u.currency == Some(r.account.currency)
    && u.provider == r.provider && u.model == r.model && u.pricing == Some(r.pricing)
    && u.created == r.created
  }

  function Settle(l: Ledger, tenant: string, id: Id, u: Usage, now: int): Result<Ledger, Error> {
    var i := Find(l.reservations, tenant, id);
    if i == |l.reservations| then Err(NotFound)
    else
      var r := l.reservations[i];
      if !Matches(r, u) || u.actual.None? || u.actual.value < 0.0 then Err(BadCall)
      else if r.phase == InFlight || r.phase == Uncertain then
        if UsageKnown(l, u.id) then Err(Duplicate)
        else
          Ok(l.(reservations := l.reservations[i :=
              r.(phase := Settled, actual := u.actual, usageId := Some(u.id), updated := now)],
                usages := l.usages + [u]))
      else if r.usageId == Some(u.id) then Ok(l)
      else Err(Conflict)
  }

  function Reconcile(l: Ledger, tenant: string, id: Id, cost: real, actor: string, reason: string,
      now: int): Result<Ledger, Error>
  {
    var i := Find(l.reservations, tenant, id);
    if cost < 0.0 || Blank(actor) || Blank(reason) then Err(BadCall)
    else if i == |l.reservations| then Err(NotFound)
    else
      var r := l.reservations[i];
      if r.phase == Uncertain || ((r.phase == Reserved || r.phase == InFlight) && r.updated < now - HOUR) then
        var next := r.(phase := if cost == 0.0 then Released else Settled, actual := Some(cost), updated := now);
        Ok(l.(reservations := l.reservations[i := next]))
      else Err(Conflict)
  }

  function RecordUsage(l: Ledger, u: Usage): Result<Ledger, Error> {
    if exists x <- l.usages :: x.id == u.id then Err(Duplicate) else Ok(l.(usages := l.usages + [u]))
  }

  function CreateBudget(l: Ledger, a: Account, e: Validity.Entry): Result<Ledger, Error> {
    if e.amount <= 0.0 || !e.Valid() then Err(BadCall)
    else
      var inserted := Validity.Insert(if a in l.budgets then l.budgets[a] else [], e);
      if inserted.None? then Err(BadCall) else Ok(l.(budgets := l.budgets[a := inserted.value]))
  }

  /******* Runs *******/

  datatype Event =
    | ReserveEvent(r: Reservation)
    | StartEvent(tenant: string, id: Id, now: int)
    | UncertainEvent(tenant: string, id: Id, now: int)
    | ReleaseEvent(tenant: string, id: Id, now: int)
    | SettleEvent(tenant: string, id: Id, u: Usage, now: int)
    | ReconcileEvent(tenant: string, id: Id, cost: real, actor: string, reason: string, now: int)
    | UsageEvent(u: Usage)
    | BudgetEvent(a: Account, e: Validity.Entry)

  function Apply(l: Ledger, e: Event): Result<Ledger, Error> {
    match e
    case ReserveEvent(r) => Reserve(l, r)
    case StartEvent(t, id, now) => Start(l, t, id, now)
    case UncertainEvent(t, id, now) => Ok(MarkUncertain(l, t, id, now))
    case ReleaseEvent(t, id, now) => Release(l, t, id, now)
    case SettleEvent(t, id, u, now) => Settle(l, t, id, u, now)
    case ReconcileEvent(t, id, cost, actor, reason, now) => Reconcile(l, t, id, cost, actor, reason, now)
    case UsageEvent(u) => RecordUsage(l, u)
    case BudgetEvent(a, b) => CreateBudget(l, a, b)
  }

  /** A call that raises leaves the tables as they were. */
  function Step(l: Ledger, e: Event): Ledger {
    var r := Apply(l, e);
    if r.Ok? then r.value else l
  }

  const EMPTY := Ledger([], [], map[])

  function Run(events: seq<Event>): Ledger {
    if events == [] then EMPTY else Step(Run(events[..|events| - 1]), events[|events| - 1])
  }

  /******* What every run keeps *******/

  predicate ReservationKept(r: Reservation) {
    && r.period == MonthOf(r.created) && r.amount >= 0.0
    && (Live(r) ==> r.actual.None? && r.usageId.None?)
    && (r.phase == Released ==> r.actual == Some(0.0) && r.usageId.None?)
    && (r.phase == Settled ==> r.actual.Some? && r.actual.value >= 0.0)
  }

  predicate Carries(u: Usage, r: Reservation) {
    r.usageId == Some(u.id) && Matches(r, u) && u.actual == r.actual
  }

  predicate Kept(l: Ledger) {
    && (forall i :: 0 <= i < |l.reservations| ==> ReservationKept(l.reservations[i]))
    && (forall i, j :: 0 <= i < j < |l.reservations| ==> l.reservations[i].id != l.reservations[j].id)
    && (forall i, j :: 0 <= i < j < |l.usages| ==> l.usages[i].id != l.usages[j].id)
    && (forall i :: 0 <= i < |l.reservations| && l.reservations[i].usageId.Some? ==>
                      exists u <- l.usages :: Carries(u, l.reservations[i]))
    && (forall i, j :: 0 <= i < j < |l.reservations| && l.reservations[i].usageId.Some? ==>
                         l.reservations[i].usageId != l.reservations[j].usageId)
  }

  /** Every step but settlement changes nothing, or one row without a usage event, or adds a row. */
  lemma UpdateKeeps(l: Ledger, i: nat, x: Reservation)
    requires Kept(l) && i < |l.reservations| && x.id == l.reservations[i].id
    requires x.usageId.None? && l.reservations[i].usageId.None? && ReservationKept(x)
    ensures Kept(l.(reservations := l.reservations[i := x]))
  {
  }

  lemma SettleKeeps(l: Ledger, i: nat, x: Reservation, u: Usage)
    requires Kept(l) && i < |l.reservations| && x.id == l.reservations[i].id
    requires ReservationKept(x) && Carries(u, x) && !UsageKnown(l, u.id)
    ensures Kept(l.(reservations := l.reservations[i := x], usages := l.usages + [u]))
  {
  }

  lemma AppendReservationKeeps(l: Ledger, r: Reservation)
    requires Kept(l) && Reserve(l, r).Ok?
    ensures Kept(Reserve(l, r).value)
  {
    assert forall k :: 0 <= k < |l.reservations| ==> l.reservations[k] in l.reservations;
  }

  lemma AppendUsageKeeps(l: Ledger, u: Usage)
    requires Kept(l) && forall x <- l.usages :: x.id != u.id
    ensures Kept(l.(usages := l.usages + [u]))
  {
  }

  lemma StepKeeps(l: Ledger, e: Event)
    requires Kept(l)
    ensures Kept(Step(l, e))
  {
    if Step(l, e) != l {
      match e
      case ReserveEvent(r) => AppendReservationKeeps(l, r);
      case UsageEvent(u) => AppendUsageKeeps(l, u);
      case BudgetEvent(_, _) =>
      case SettleEvent(tenant, id, u, _) =>
        var i := Find(l.reservations, tenant, id);
        SettleKeeps(l, i, Step(l, e).reservations[i], u);
      case StartEvent(tenant, id, _) => OneRowKeeps(l, e, tenant, id);
      case UncertainEvent(tenant, id, _) => OneRowKeeps(l, e, tenant, id);
      case ReleaseEvent(tenant, id, _) => OneRowKeeps(l, e, tenant, id);
      case ReconcileEvent(tenant, id, _, _, _, _) => OneRowKeeps(l, e, tenant, id);
    }
  }

  predicate OneRowEvent(e: Event) {
    e.StartEvent? || e.UncertainEvent? || e.ReleaseEvent? || e.ReconcileEvent?
  }

  lemma OneRowKeeps(l: Ledger, e: Event, tenant: string, id: Id)
    requires Kept(l) && OneRowEvent(e) && e.tenant == tenant && e.id == id && Step(l, e) != l
    ensures Kept(Step(l, e))
  {
    var i := Find(l.reservations, tenant, id);
    assert ReservationKept(l.reservations[i]);
    UpdateKeeps(l, i, Step(l, e).reservations[i]);
  }

  lemma {:induction false} RunKeeps(events: seq<Event>)
    ensures Kept(Run(events))
  {
    if events != [] {
      RunKeeps(events[..|events| - 1]);
      StepKeeps(Run(events[..|events| - 1]), events[|events| - 1]);
    }
  }

  /******* Exactly-once accounting *******/

  predicate Linked(rs: seq<Reservation>, id: Id) {
    exists i | 0 <= i < |rs| :: rs[i].usageId == Some(id)
  }

  /** Usage that settles no reservation. */
  function Outside(rs: seq<Reservation>, a: Account, m: Month): Usage -> real {
    u => if Charged(u, a, m) && !Linked(rs, u.id) then UsageCost(u) else 0.0
  }

  function WallMonth(us: seq<Usage>, id: Id): Option<Month> {
    if us == [] then None else if us[0].id == id then Some(MonthOf(us[0].wall)) else WallMonth(us[1..], id)
  }

  /** What the usage event of a settled reservation adds to the month. */
  function Carried(us: seq<Usage>, a: Account, m: Month): Reservation -> real {
    (r: Reservation) =>
      if r.account == a && r.usageId.Some? && WallMonth(us, r.usageId.value) == Some(m) then Amount(r) else 0.0
  }

  /** Everything one reservation adds to spent and reserved of the month. */
  function Share(us: seq<Usage>, a: Account, m: Month): Reservation -> real {
    r => Held(a, m)(r) + Reconciled(a, m)(r) + Carried(us, a, m)(r)
  }

  lemma {:induction false} WallMonthAppend(us: seq<Usage>, u: Usage, id: Id)
    ensures WallMonth(us + [u], id)
            == if WallMonth(us, id).Some? then WallMonth(us, id) else if u.id == id then Some(MonthOf(u.wall)) else None
    ensures WallMonth(us, id).Some? <==> exists x <- us :: x.id == id
  {
    if us == [] {
      assert us + [u] == [u] && [u][1..] == [];
    } else {
      assert (us + [u])[1..] == us[1..] + [u];
      WallMonthAppend(us[1..], u, id);
      assert us == [us[0]] + us[1..];
    }
  }

  predicate Splits(l: Ledger, a: Account, m: Month) {
    SumBy(l.usages, Used(a, m))
    == SumBy(l.reservations, Carried(l.usages, a, m)) + SumBy(l.usages, Outside(l.reservations, a, m))
  }

  lemma UpdateSplits(l: Ledger, i: nat, x: Reservation, a: Account, m: Month)
    requires Splits(l, a, m) && i < |l.reservations| && x.usageId.None? && l.reservations[i].usageId.None?
    ensures Splits(l.(reservations := l.reservations[i := x]), a, m)
  {
    var rs, us := l.reservations, l.usages;
    SumUpdate(rs, i, x, Carried(us, a, m));
    forall u | u in us ensures Outside(rs[i := x], a, m)(u) == Outside(rs, a, m)(u) {
      LinkedUpdate(rs, i, x, u.id);
    }
    SumSame(us, Outside(rs[i := x], a, m), Outside(rs, a, m));
  }

  lemma LinkedUpdate(rs: seq<Reservation>, i: nat, x: Reservation, id: Id)
    requires i < |rs| && rs[i].usageId.None?
    ensures Linked(rs[i := x], id) <==> Linked(rs, id) || x.usageId == Some(id)
  {
    if Linked(rs, id) {
      var k :| 0 <= k < |rs| && rs[k].usageId == Some(id);
      assert rs[i := x][k] == rs[k];
    }
    assert rs[i := x][i] == x;
  }

  lemma ReserveSplits(l: Ledger, x: Reservation, a: Account, m: Month)
    requires Splits(l, a, m) && x.usageId.None?
    ensures Splits(l.(reservations := l.reservations + [x]), a, m)
  {
    var rs, us := l.reservations, l.usages;
    SumAppend(rs, x, Carried(us, a, m));
    forall u | u in us ensures Linked(rs + [x], u.id) == Linked(rs, u.id) {
      if Linked(rs, u.id) {
        var k :| 0 <= k < |rs| && rs[k].usageId == Some(u.id);
        assert (rs + [x])[k] == rs[k];
      }
    }
    SumSame(us, Outside(rs + [x], a, m), Outside(rs, a, m));
  }

  lemma UsageSplits(l: Ledger, u: Usage, a: Account, m: Month)
    requires Kept(l) && Splits(l, a, m) && forall x <- l.usages :: x.id != u.id
    ensures Splits(l.(usages := l.usages + [u]), a, m)
  {
    var rs, us := l.reservations, l.usages;
    SumAppend(us, u, Used(a, m));
    SumAppend(us, u, Outside(rs, a, m));
    CarriedSurvives(l, u, a, m);
    assert !Linked(rs, u.id);
  }

  lemma CarriedSurvives(l: Ledger, u: Usage, a: Account, m: Month)
    requires Kept(l)
    ensures SumBy(l.reservations, Carried(l.usages + [u], a, m)) == SumBy(l.reservations, Carried(l.usages, a, m))
  {
    forall r | r in l.reservations ensures Carried(l.usages + [u], a, m)(r) == Carried(l.usages, a, m)(r) {
      if r.usageId.Some? {
        WallMonthAppend(l.usages, u, r.usageId.value);
      }
    }
    SumSame(l.reservations, Carried(l.usages + [u], a, m), Carried(l.usages, a, m));
  }

  lemma SettleSplits(l: Ledger, i: nat, x: Reservation, u: Usage, a: Account, m: Month)
    requires Kept(l) && Splits(l, a, m) && i < |l.reservations| && l.reservations[i].usageId.None?
    requires Carries(u, x) && x.actual.Some? && !UsageKnown(l, u.id)
    ensures Splits(l.(reservations := l.reservations[i := x], usages := l.usages + [u]), a, m)
  {
    var rs, us := l.reservations, l.usages;
    SumAppend(us, u, Used(a, m));
    CarriedSurvives(l, u, a, m);
    SumUpdate(rs, i, x, Carried(us + [u], a, m));
    WallMonthAppend(us, u, u.id);
    SumAppend(us, u, Outside(rs[i := x], a, m));
    LinkedUpdate(rs, i, x, u.id);
    forall y | y in us ensures Outside(rs[i := x], a, m)(y) == Outside(rs, a, m)(y) {
      LinkedUpdate(rs, i, x, y.id);
    }
    SumSame(us, Outside(rs[i := x], a, m), Outside(rs, a, m));
  }

  lemma StepSplits(l: Ledger, e: Event, a: Account, m: Month)
    requires Kept(l) && Splits(l, a, m)
    ensures Splits(Step(l, e), a, m)
  {
    var d := Step(l, e);
    if d != l {
      match e
      case ReserveEvent(r) => ReserveSplits(l, Stored(r), a, m);
      case UsageEvent(u) => UsageSplits(l, u, a, m);
      case BudgetEvent(_, _) =>
      case SettleEvent(_, _, _, _) => SettledSplits(l, e, a, m);
      case _ => OneRowSplits(l, e, a, m);
    }
  }

  lemma SettledSplits(l: Ledger, e: Event, a: Account, m: Month)
    requires Kept(l) && Splits(l, a, m) && e.SettleEvent? && Step(l, e) != l
    ensures Splits(Step(l, e), a, m)
  {
    var i := Find(l.reservations, e.tenant, e.id);
    assert ReservationKept(l.reservations[i]);
    SettleSplits(l, i, Step(l, e).reservations[i], e.u, a, m);
  }

  lemma OneRowSplits(l: Ledger, e: Event, a: Account, m: Month)
    requires Kept(l) && Splits(l, a, m) && OneRowEvent(e) && Step(l, e) != l
    ensures Splits(Step(l, e), a, m)
  {
    var i := Find(l.reservations, e.tenant, e.id);
    assert ReservationKept(l.reservations[i]);
    UpdateSplits(l, i, Step(l, e).reservations[i], a, m);
  }

  /** What one reservation counts for, in whichever state it is: the amount while it is live, the actual
      cost once settled, nothing once released. A settlement with a usage event counts in the month the
      event's stored text shows. */
  lemma ShareIsOnce(l: Ledger, i: nat, a: Account, m: Month)
    requires Kept(l) && i < |l.reservations|
    ensures var r := l.reservations[i];
            Share(l.usages, a, m)(r) ==
            if r.account != a then 0.0
            else match r.phase
              case Released => 0.0
              case Settled =>
                if (if r.usageId.Some? then WallMonth(l.usages, r.usageId.value) else Some(r.period)) == Some(m)
                then r.actual.value else 0.0
              case _ => if r.period == m then r.amount else 0.0
  {
    var r := l.reservations[i];
    assert ReservationKept(r);
    assert Held(a, m)(r) == if In(r, a, m) && Live(r) then r.amount else 0.0;
    assert Reconciled(a, m)(r) == if In(r, a, m) && r.phase == Settled && r.usageId.None? then r.actual.value else 0.0;
    assert Carried(l.usages, a, m)(r)
        == if r.account == a && r.usageId.Some? && WallMonth(l.usages, r.usageId.value) == Some(m)
           then r.actual.value else 0.0;
  }

  /** Exactly-once accounting: after any run, spent plus reserved is the sum of one share per
      reservation and of the usage that settles none. */
  lemma {:induction false} ExactlyOnce(events: seq<Event>, a: Account, m: Month)
    ensures var l := Run(events);
            && Splits(l, a, m)
            && BalanceOf(l, a, m).spent + BalanceOf(l, a, m).reserved
               == SumBy(l.reservations, Share(l.usages, a, m)) + SumBy(l.usages, Outside(l.reservations, a, m))
  {
    if events != [] {
      var before := events[..|events| - 1];
      ExactlyOnce(before, a, m);
      RunKeeps(before);
      StepSplits(Run(before), events[|events| - 1], a, m);
    }
    var l := Run(events);
    var both: Reservation -> real := r => Held(a, m)(r) + Reconciled(a, m)(r);
    SumAdds(l.reservations, Held(a, m), Reconciled(a, m), both);
    SumAdds(l.reservations, both, Carried(l.usages, a, m), Share(l.usages, a, m));
  }

  /******* What each call does to the row and to every balance *******/

  /** The four totals of the month moved by these. */
  predicate Moves(l: Ledger, d: Ledger, a: Account, m: Month, shift: Balance) {
    var before := BalanceOf(l, a, m);
    BalanceOf(d, a, m) == Balance(before.spent + shift.spent, before.reserved + shift.reserved,
                                  before.uncertain + shift.uncertain, before.reconciled + shift.reconciled)
  }

  const STILL := Balance(0.0, 0.0, 0.0, 0.0)

  lemma {:induction false} FindsRow(rows: seq<Reservation>, i: nat)
    requires i < |rows| && forall j, k :: 0 <= j < k < |rows| ==> rows[j].id != rows[k].id
    ensures Find(rows, rows[i].account.tenant, rows[i].id) == i
  {
    if i > 0 {
      FindsRow(rows[1..], i - 1);
    }
  }

  lemma RowMoves(l: Ledger, i: nat, x: Reservation, a: Account, m: Month)
    requires i < |l.reservations|
    ensures var r, reconciled := l.reservations[i], Reconciled(a, m)(x) - Reconciled(a, m)(l.reservations[i]);
            Moves(l, l.(reservations := l.reservations[i := x]), a, m,
                  Balance(reconciled, Held(a, m)(x) - Held(a, m)(r), HeldUncertain(a, m)(x) - HeldUncertain(a, m)(r),
                          reconciled))
  {
    SumUpdate(l.reservations, i, x, Held(a, m));
    SumUpdate(l.reservations, i, x, HeldUncertain(a, m));
    SumUpdate(l.reservations, i, x, Reconciled(a, m));
  }

  lemma AppendedBalance(l: Ledger, r: Reservation, a: Account, m: Month)
    requires r.phase == Reserved && r.actual.None? && r.usageId.None?
    ensures Moves(l, l.(reservations := l.reservations + [r]), a, m,
                  STILL.(reserved := if a == r.account && m == r.period then r.amount else 0.0))
  {
    SumAppend(l.reservations, r, Held(a, m));
    SumAppend(l.reservations, r, HeldUncertain(a, m));
    SumAppend(l.reservations, r, Reconciled(a, m));
  }

  /** A reservation is taken if and only if it is new and sound and leaves its month within the budget in
      force, if any; it is stored without a usage event and adds its amount to its month's reserved total. */
  lemma ReserveMoves(l: Ledger, r: Reservation, a: Account, m: Month)
    ensures var budget, now := BudgetAt(l, r.account, r.created), BalanceOf(l, r.account, r.period);
            && (Reserve(l, r).Ok?
                <==> && r.phase == Reserved && r.actual.None? && r.amount >= 0.0 && r.period == MonthOf(r.created)
                     && (budget.Some? ==> now.spent + now.reserved + r.amount <= budget.value.amount)
                     && forall i :: 0 <= i < |l.reservations| ==> l.reservations[i].id != r.id)
            && (Reserve(l, r).Ok? ==>
                  && Reserve(l, r).value == l.(reservations := l.reservations + [r.(usageId := None)])
                  && Moves(l, Reserve(l, r).value, a, m,
                           STILL.(reserved := if a == r.account && m == r.period then r.amount else 0.0)))
  {
    assert (exists x <- l.reservations :: x.id == r.id)
           <==> exists i :: 0 <= i < |l.reservations| && l.reservations[i].id == r.id;
    if Reserve(l, r).Ok? {
      AppendedBalance(l, Stored(r), a, m);
    }
  }

  /** Only a reserved row goes in flight, and no total moves. */
  lemma StartMoves(l: Ledger, i: nat, now: int, a: Account, m: Month)
    requires Kept(l) && i < |l.reservations|
    ensures var r := l.reservations[i];
            var result := Start(l, r.account.tenant, r.id, now);
            && (result.Ok? <==> r.phase == Reserved)
            && (result.Ok? ==>
                  && result.value == l.(reservations := l.reservations[i := r.(phase := InFlight, updated := now)])
                  && Moves(l, result.value, a, m, STILL))
  {
    FindsRow(l.reservations, i);
    RowMoves(l, i, l.reservations[i].(phase := InFlight, updated := now), a, m);
  }

  /** A reserved or in-flight row becomes uncertain: its amount stays reserved and counts as uncertain. */
  lemma UncertainMoves(l: Ledger, i: nat, now: int, a: Account, m: Month)
    requires Kept(l) && i < |l.reservations|
    ensures var r := l.reservations[i];
            var d := MarkUncertain(l, r.account.tenant, r.id, now);
            if r.phase == Reserved || r.phase == InFlight then
              && d == l.(reservations := l.reservations[i := r.(phase := Uncertain, updated := now)])
              && Moves(l, d, a, m, if a == r.account && m == r.period then STILL.(uncertain := r.amount) else STILL)
            else d == l
  {
    var r := l.reservations[i];
    assert ReservationKept(r);
    FindsRow(l.reservations, i);
    RowMoves(l, i, r.(phase := Uncertain, updated := now), a, m);
  }

  /** A reserved or in-flight row gives its amount back and costs nothing; any other row stays. */
  lemma ReleaseMoves(l: Ledger, i: nat, now: int, a: Account, m: Month)
    requires Kept(l) && i < |l.reservations|
    ensures var r := l.reservations[i];
            var result := Release(l, r.account.tenant, r.id, now);
            if r.phase == Reserved || r.phase == InFlight then
              && result == Ok(l.(reservations := l.reservations[i :=
                                   r.(phase := Released, actual := Some(0.0), updated := now)]))
              && Moves(l, result.value, a, m,
                       if a == r.account && m == r.period then STILL.(reserved := -r.amount) else STILL)
            else result == Ok(l)
  {
    var r := l.reservations[i];
    assert ReservationKept(r);
    FindsRow(l.reservations, i);
    RowMoves(l, i, r.(phase := Released, actual := Some(0.0), updated := now), a, m);
  }

  /** A reconciliation names its cost, an actor and a reason, of a row that is uncertain or that nobody
      touched for over an hour. The cost it names is the row's, and takes the place of its amount. */
  lemma ReconcileMoves(l: Ledger, i: nat, cost: real, actor: string, reason: string, now: int, a: Account, m: Month)
    requires Kept(l) && i < |l.reservations|
    ensures var r := l.reservations[i];
            var result := Reconcile(l, r.account.tenant, r.id, cost, actor, reason, now);
            && (result.Ok?
                <==> && cost >= 0.0 && !Blank(actor) && !Blank(reason)
                     && (r.phase == Uncertain
                         || ((r.phase == Reserved || r.phase == InFlight) && now - r.updated > 3600)))
            && (result.Ok? ==>
                  && result.value == l.(reservations := l.reservations[i :=
                       r.(phase := if cost == 0.0 then Released else Settled, actual := Some(cost), updated := now)])
                  && Moves(l, result.value, a, m,
                           if a == r.account && m == r.period
                           then Balance(cost, -r.amount, if r.phase == Uncertain then -r.amount else 0.0, cost)
                           else STILL))
  {
    var r := l.reservations[i];
    assert ReservationKept(r);
    FindsRow(l.reservations, i);
    RowMoves(l, i, r.(phase := if cost == 0.0 then Released else Settled, actual := Some(cost), updated := now), a, m);
  }

  /** What a usage event says of itself is what was reserved, and at which price. */
  predicate Describes(u: Usage, r: Reservation) {
    (u.tenant, u.provider, u.model, u.currency, u.pricing, u.created)
    == (r.account.tenant, r.provider, r.model, Some(r.account.currency), Some(r.pricing), r.created)
  }

  /** What a settlement of an open row needs and does: the row takes the event's cost, the reserved total
      of its month loses the amount, and the spent total of the month the event's text shows gains the cost. */
  lemma SettleMoves(l: Ledger, i: nat, u: Usage, now: int, a: Account, m: Month)
    requires Kept(l) && i < |l.reservations|
    requires l.reservations[i].phase == InFlight || l.reservations[i].phase == Uncertain
    ensures var r := l.reservations[i];
            var result := Settle(l, r.account.tenant, r.id, u, now);
            var off := if a == r.account && m == r.period then r.amount else 0.0;
            && (result.Ok?
                <==> Describes(u, r) && u.actual.Some? && u.actual.value >= 0.0 && forall x <- l.usages :: x.id != u.id)
            && (result.Ok? ==>
                  && result.value == l.(usages := l.usages + [u], reservations := l.reservations[i :=
                       r.(phase := Settled, actual := u.actual, usageId := Some(u.id), updated := now)])
                  && Moves(l, result.value, a, m,
                           Balance(if a == r.account && m == MonthOf(u.wall) then u.actual.value else 0.0,
                                   -off, if r.phase == Uncertain then -off else 0.0, 0.0)))
  {
    var r := l.reservations[i];
    FindsRow(l.reservations, i);
    UsageKnownExactly(l, u.id);
    if Describes(u, r) && u.actual.Some? {
      SettledMoves(l, i, u, now, a, m);
    }
  }

  lemma SettledMoves(l: Ledger, i: nat, u: Usage, now: int, a: Account, m: Month)
    requires Kept(l) && i < |l.reservations| && Describes(u, l.reservations[i]) && u.actual.Some?
    requires l.reservations[i].phase == InFlight || l.reservations[i].phase == Uncertain
    ensures var r := l.reservations[i];
            var off := if a == r.account && m == r.period then r.amount else 0.0;
            Moves(l, l.(usages := l.usages + [u], reservations := l.reservations[i :=
                       r.(phase := Settled, actual := u.actual, usageId := Some(u.id), updated := now)]), a, m,
                  Balance(if a == r.account && m == MonthOf(u.wall) then u.actual.value else 0.0,
                          -off, if r.phase == Uncertain then -off else 0.0, 0.0))
  {
    var r := l.reservations[i];
    assert ReservationKept(r);
    RowMoves(l, i, r.(phase := Settled, actual := u.actual, usageId := Some(u.id), updated := now), a, m);
    SumAppend(l.usages, u, Used(a, m));
  }

  /** A row that is not open takes no settlement: the one that settled it is answered again and changes
      nothing, any other is a conflict, and one that does not fit the row is refused as such. */
  lemma SettleRefused(l: Ledger, i: nat, u: Usage, now: int)
    requires Kept(l) && i < |l.reservations|
    requires l.reservations[i].phase != InFlight && l.reservations[i].phase != Uncertain
    ensures var r := l.reservations[i];
            Settle(l, r.account.tenant, r.id, u, now)
            == if !Describes(u, r) || u.actual.None? || u.actual.value < 0.0 then Err(BadCall)
               else if r.usageId == Some(u.id) then Ok(l) else Err(Conflict)
  {
    FindsRow(l.reservations, i);
  }

  /** A usage event that settled a reservation is stored itself. */
  lemma UsageKnownExactly(l: Ledger, id: Id)
    requires Kept(l)
    ensures UsageKnown(l, id) <==> exists u <- l.usages :: u.id == id
  {
    if r :| r in l.reservations && r.usageId == Some(id) {
      var i :| 0 <= i < |l.reservations| && l.reservations[i] == r;
      var u :| u in l.usages && Carries(u, l.reservations[i]);
    }
  }

  /** Other usage is charged once, at its cost, to the month its text shows. */
  lemma UsageMoves(l: Ledger, u: Usage, a: Account, m: Month)
    ensures RecordUsage(l, u).Ok? <==> forall x <- l.usages :: x.id != u.id
    ensures RecordUsage(l, u).Ok? ==>
              && RecordUsage(l, u).value == l.(usages := l.usages + [u])
              && Moves(l, RecordUsage(l, u).value, a, m,
                       if u.tenant == a.tenant && u.currency == Some(a.currency) && MonthOf(u.wall) == m
                       then STILL.(spent := if u.actual.Some? then u.actual.value
                                            else if u.estimated.Some? then u.estimated.value else 0.0)
                       else STILL)
  {
    SumAppend(l.usages, u, Used(a, m));
  }

  /** A budget is stored if and only if it is sound and no stored one of the account blocks it, that is,
      overlaps it, other than one past the sentinel under an open end. No balance moves. */
  lemma BudgetRule(l: Ledger, a: Account, e: Validity.Entry)
    requires a in l.budgets ==> Validity.AllValid(l.budgets[a])
    ensures CreateBudget(l, a, e).Ok?
            <==> && e.amount > 0.0 && e.Valid()
                 && (a in l.budgets ==>
                       forall s <- l.budgets[a] ::
                         Validity.Overlaps(s, e) ==> e.end.None? && !Before(s.start, Validity.LAST))
    ensures CreateBudget(l, a, e).Ok? ==>
              CreateBudget(l, a, e).value
              == l.(budgets := l.budgets[a := (if a in l.budgets then l.budgets[a] else []) + [e]])
  {
    if e.Valid() && a in l.budgets {
      BlockedExactly(l.budgets[a], e);
    }
  }

  lemma BlockedExactly(entries: seq<Validity.Entry>, e: Validity.Entry)
    requires e.Valid() && Validity.AllValid(entries)
    ensures Validity.Blocked(entries, e)
            <==> exists s <- entries :: Validity.Overlaps(s, e) && (e.end.Some? || Before(s.start, Validity.LAST))
  {
    forall s | s in entries
      ensures Validity.Blocks(s, e) <==> Validity.Overlaps(s, e) && (e.end.Some? || Before(s.start, Validity.LAST))
    {
      Validity.BlocksExactly(s, e);
    }
    if Validity.Blocked(entries, e) {
      var i :| 0 <= i < |entries| && Validity.Blocks(entries[i], e);
      assert entries[i] in entries;
    }
    if s :| s in entries && Validity.Blocks(s, e) {
      var i :| 0 <= i < |entries| && entries[i] == s;
    }
  }

  /** Every stored budget is sound, in every reachable ledger. */
  lemma {:induction false} BudgetsAreValid(events: seq<Event>, a: Account)
    requires a in Run(events).budgets
    ensures forall e <- Run(events).budgets[a] :: e.Valid() && e.amount > 0.0
  {
    if events != [] {
      var before := Run(events[..|events| - 1]);
      if a in before.budgets {
        BudgetsAreValid(events[..|events| - 1], a);
      }
    }
  }

  /** Nothing is done to a reservation of another tenant or id, and every call but one says so. */
  lemma UnknownRow(l: Ledger, tenant: string, id: Id, u: Usage, cost: real, actor: string, reason: string, now: int)
    requires forall r <- l.reservations :: !(r.account.tenant == tenant && r.id == id)
    ensures Start(l, tenant, id, now) == Err(Conflict) && MarkUncertain(l, tenant, id, now) == l
    ensures Release(l, tenant, id, now) == Settle(l, tenant, id, u, now) == Err(NotFound)
    ensures Reconcile(l, tenant, id, cost, actor, reason, now)
            == Err(if cost < 0.0 || Blank(actor) || Blank(reason) then BadCall else NotFound)
  {
  }

  /** Settling takes the amount off the reserved total, and puts the actual cost on the spent total of
      the same month if and only if the usage event's text shows that month, or the cost is zero. */
  lemma SettleMovesWithinMonth(l: Ledger, i: nat, u: Usage, now: int)
    requires Kept(l) && i < |l.reservations|
    requires l.reservations[i].phase == InFlight || l.reservations[i].phase == Uncertain
    requires Settle(l, l.reservations[i].account.tenant, l.reservations[i].id, u, now).Ok?
    ensures var r := l.reservations[i];
            var before := BalanceOf(l, r.account, r.period);
            var after := BalanceOf(Settle(l, r.account.tenant, r.id, u, now).value, r.account, r.period);
            && after.reserved == before.reserved - r.amount
            && after.reconciled == before.reconciled
            && (after.spent == before.spent + u.actual.value <==> MonthOf(u.wall) == r.period || u.actual.value == 0.0)
  {
    var r := l.reservations[i];
    SettleMoves(l, i, u, now, r.account, r.period);
  }

  /** Replaying a settlement changes nothing; any other settlement of the reservation is refused. */
  lemma SettleOnce(l: Ledger, tenant: string, id: Id, u: Usage, now: int, other: Usage, later: int)
    requires Kept(l) && Settle(l, tenant, id, u, now).Ok?
    ensures var d := Settle(l, tenant, id, u, now).value;
            && Settle(d, tenant, id, u, later) == Ok(d)
            && (other.id != u.id ==> Settle(d, tenant, id, other, later).Err?)
  {
    var d := Settle(l, tenant, id, u, now).value;
    var i := Find(l.reservations, tenant, id);
    FindUpdate(l.reservations, tenant, id, d.reservations[i]);
    assert ReservationKept(l.reservations[i]);
  }

  lemma {:induction false} FindUpdate(rows: seq<Reservation>, tenant: string, id: Id, x: Reservation)
    requires Find(rows, tenant, id) < |rows| && x.id == id && x.account.tenant == tenant
    ensures Find(rows[Find(rows, tenant, id) := x], tenant, id) == Find(rows, tenant, id)
  {
    if !(rows[0].id == id && rows[0].account.tenant == tenant) {
      FindUpdate(rows[1..], tenant, id, x);
      var i := Find(rows[1..], tenant, id);
      assert rows[1 + i := x][1..] == rows[1..][i := x];
    }
  }

  /******* Budget safety *******/

  function Over(x: real): real {
    if x > 0.0 then x else 0.0
  }

  /** By how much actual costs exceeded their reserved amounts. */
  function Overrun(a: Account, m: Month): Reservation -> real {
    r => if In(r, a, m) && r.phase == Settled then Over(Amount(r) - r.amount) else 0.0
  }

  predicate LinkedHere(rs: seq<Reservation>, a: Account, m: Month, id: Id) {
    exists i | 0 <= i < |rs| :: In(rs[i], a, m) && rs[i].usageId == Some(id)
  }

  /** Usage charged to the month that settles none of the month's reservations. */
  function Unreserved(rs: seq<Reservation>, a: Account, m: Month): Usage -> real {
    u => if Charged(u, a, m) && !LinkedHere(rs, a, m, u.id) then Over(UsageCost(u)) else 0.0
  }

  predicate WithinBudget(l: Ledger, a: Account, m: Month, budget: real) {
    BalanceOf(l, a, m).spent + BalanceOf(l, a, m).reserved
    <= budget + SumBy(l.reservations, Overrun(a, m)) + SumBy(l.usages, Unreserved(l.reservations, a, m))
  }

  lemma {:induction false} SumsNonnegative(l: Ledger, rs: seq<Reservation>, us: seq<Usage>, a: Account, m: Month)
    ensures SumBy(rs, Overrun(a, m)) >= 0.0 && SumBy(us, Unreserved(l.reservations, a, m)) >= 0.0
  {
    if rs != [] {
      SumsNonnegative(l, rs[..|rs| - 1], us, a, m);
    } else if us != [] {
      SumsNonnegative(l, rs, us[..|us| - 1], a, m);
    }
  }

  lemma LinkedHereUpdate(rs: seq<Reservation>, i: nat, x: Reservation, a: Account, m: Month, id: Id)
    requires i < |rs| && rs[i].usageId.None?
    ensures LinkedHere(rs[i := x], a, m, id) <==> LinkedHere(rs, a, m, id) || (In(x, a, m) && x.usageId == Some(id))
  {
    if LinkedHere(rs, a, m, id) {
      var k :| 0 <= k < |rs| && In(rs[k], a, m) && rs[k].usageId == Some(id);
      assert rs[i := x][k] == rs[k];
    }
    assert rs[i := x][i] == x;
  }

  lemma UnreservedSame(l: Ledger, rs: seq<Reservation>, a: Account, m: Month)
    requires forall u <- l.usages :: LinkedHere(rs, a, m, u.id) == LinkedHere(l.reservations, a, m, u.id)
    ensures SumBy(l.usages, Unreserved(rs, a, m)) == SumBy(l.usages, Unreserved(l.reservations, a, m))
  {
    SumSame(l.usages, Unreserved(rs, a, m), Unreserved(l.reservations, a, m));
  }

  lemma AppendedAllowance(l: Ledger, r: Reservation, a: Account, m: Month)
    requires r.phase == Reserved && r.usageId.None?
    ensures var rs := l.reservations + [r];
            && SumBy(rs, Overrun(a, m)) == SumBy(l.reservations, Overrun(a, m))
            && SumBy(l.usages, Unreserved(rs, a, m)) == SumBy(l.usages, Unreserved(l.reservations, a, m))
  {
    var rs := l.reservations;
    SumAppend(rs, r, Overrun(a, m));
    forall u | u in l.usages ensures LinkedHere(rs + [r], a, m, u.id) == LinkedHere(rs, a, m, u.id) {
      if LinkedHere(rs, a, m, u.id) {
        var k :| 0 <= k < |rs| && In(rs[k], a, m) && rs[k].usageId == Some(u.id);
        assert (rs + [r])[k] == rs[k];
      }
    }
    UnreservedSame(l, rs + [r], a, m);
  }

  lemma ReserveStaysWithin(l: Ledger, r: Reservation, a: Account, m: Month, budget: Validity.Entry)
    requires WithinBudget(l, a, m, budget.amount) && Reserve(l, r).Ok?
    requires In(r, a, m) ==> BudgetAt(l, a, r.created) == Some(budget)
    ensures WithinBudget(Reserve(l, r).value, a, m, budget.amount)
  {
    AppendedBalance(l, Stored(r), a, m);
    AppendedAllowance(l, Stored(r), a, m);
    SumsNonnegative(l, l.reservations, l.usages, a, m);
    assert In(r, a, m) ==> BalanceOf(l, a, m).spent + BalanceOf(l, a, m).reserved + r.amount <= budget.amount;
  }

  lemma UsageStaysWithin(l: Ledger, u: Usage, a: Account, m: Month, budget: real)
    requires Kept(l) && WithinBudget(l, a, m, budget) && forall x <- l.usages :: x.id != u.id
    ensures WithinBudget(l.(usages := l.usages + [u]), a, m, budget)
  {
  }

  lemma UpdateStaysWithin(l: Ledger, i: nat, x: Reservation, a: Account, m: Month, budget: real)
    requires WithinBudget(l, a, m, budget) && i < |l.reservations|
    requires var r := l.reservations[i];
             && ReservationKept(r) && ReservationKept(x) && Live(r)
             && x.account == r.account && x.period == r.period && x.amount == r.amount && x.usageId.None?
    ensures WithinBudget(l.(reservations := l.reservations[i := x]), a, m, budget)
  {
    var rs := l.reservations;
    SumUpdate(rs, i, x, Held(a, m));
    SumUpdate(rs, i, x, Reconciled(a, m));
    SumUpdate(rs, i, x, Overrun(a, m));
    forall u | u in l.usages ensures LinkedHere(rs[i := x], a, m, u.id) == LinkedHere(rs, a, m, u.id) {
      LinkedHereUpdate(rs, i, x, a, m, u.id);
    }
    UnreservedSame(l, rs[i := x], a, m);
  }

  lemma SettleStaysWithin(l: Ledger, i: nat, x: Reservation, u: Usage, a: Account, m: Month, budget: real)
    requires WithinBudget(l, a, m, budget) && i < |l.reservations| && !UsageKnown(l, u.id)
    requires var r := l.reservations[i];
             && ReservationKept(r) && ReservationKept(x) && Live(r)
             && x.account == r.account && x.period == r.period && x.amount == r.amount
             && x.phase == Settled && Carries(u, x)
    ensures WithinBudget(l.(reservations := l.reservations[i := x], usages := l.usages + [u]), a, m, budget)
  {
    var rs, us := l.reservations, l.usages;
    SumUpdate(rs, i, x, Held(a, m));
    SumUpdate(rs, i, x, Reconciled(a, m));
    SumUpdate(rs, i, x, Overrun(a, m));
    SumAppend(us, u, Used(a, m));
    SumAppend(us, u, Unreserved(rs[i := x], a, m));
    LinkedHereUpdate(rs, i, x, a, m, u.id);
    forall y | y in us ensures LinkedHere(rs[i := x], a, m, y.id) == LinkedHere(rs, a, m, y.id) {
      LinkedHereUpdate(rs, i, x, a, m, y.id);
    }
    UnreservedSame(l, rs[i := x], a, m);
  }

  /** One budget is in force for the account throughout the month. */
  ghost predicate Governed(l: Ledger, a: Account, m: Month, i: nat) {
    a in l.budgets && Validity.Governs(l.budgets[a], i, m)
  }

  lemma SettledStaysWithin(l: Ledger, e: Event, a: Account, m: Month, budget: real)
    requires Kept(l) && WithinBudget(l, a, m, budget) && e.SettleEvent? && Step(l, e) != l
    ensures Step(l, e).budgets == l.budgets && WithinBudget(Step(l, e), a, m, budget)
  {
    var k := Find(l.reservations, e.tenant, e.id);
    assert ReservationKept(l.reservations[k]);
    SettleStaysWithin(l, k, Step(l, e).reservations[k], e.u, a, m, budget);
  }

  lemma RowStaysWithin(l: Ledger, e: Event, a: Account, m: Month, budget: real)
    requires Kept(l) && WithinBudget(l, a, m, budget) && OneRowEvent(e) && Step(l, e) != l
    ensures Step(l, e).budgets == l.budgets && WithinBudget(Step(l, e), a, m, budget)
  {
    var k := Find(l.reservations, e.tenant, e.id);
    assert ReservationKept(l.reservations[k]);
    UpdateStaysWithin(l, k, Step(l, e).reservations[k], a, m, budget);
  }

  lemma StepStaysWithin(l: Ledger, e: Event, a: Account, m: Month, i: nat)
    requires Kept(l) && Governed(l, a, m, i) && WithinBudget(l, a, m, l.budgets[a][i].amount)
    ensures Governed(Step(l, e), a, m, i) && Step(l, e).budgets[a][i] == l.budgets[a][i]
    ensures WithinBudget(Step(l, e), a, m, l.budgets[a][i].amount)
  {
    var d := Step(l, e);
    var budget := l.budgets[a][i];
    if d != l {
      match e
      case ReserveEvent(r) =>
        if In(r, a, m) {
          Validity.GovernorIsEffective(l.budgets[a], i, m, r.created);
        }
        ReserveStaysWithin(l, r, a, m, budget);
      case UsageEvent(u) => UsageStaysWithin(l, u, a, m, budget.amount);
      case BudgetEvent(b, entry) =>
        if b == a {
          Validity.GovernsForGood(l.budgets[a], i, m, entry);
        }
      case SettleEvent(_, _, _, _) => SettledStaysWithin(l, e, a, m, budget.amount);
      case _ => RowStaysWithin(l, e, a, m, budget.amount);
    }
  }

  lemma {:induction false} UnreservedBounds(l: Ledger, us: seq<Usage>, a: Account, m: Month)
    requires forall i :: 0 <= i < |l.reservations| ==> !In(l.reservations[i], a, m)
    ensures SumBy(us, Used(a, m)) <= SumBy(us, Unreserved(l.reservations, a, m))
  {
    if us != [] {
      UnreservedBounds(l, us[..|us| - 1], a, m);
    }
  }

  lemma {:induction false} NothingHeld(l: Ledger, rs: seq<Reservation>, a: Account, m: Month)
    requires forall i :: 0 <= i < |rs| ==> !In(rs[i], a, m)
    ensures SumBy(rs, Held(a, m)) == SumBy(rs, Reconciled(a, m)) == SumBy(rs, Overrun(a, m)) == 0.0
  {
    if rs != [] {
      NothingHeld(l, rs[..|rs| - 1], a, m);
    }
  }

  function RunFrom(l: Ledger, events: seq<Event>): Ledger {
    if events == [] then l else Step(RunFrom(l, events[..|events| - 1]), events[|events| - 1])
  }

  /** A month in which nothing is reserved yet is within any budget. */
  lemma NothingReservedIsWithin(l: Ledger, a: Account, m: Month, budget: real)
    requires budget >= 0.0 && forall k :: 0 <= k < |l.reservations| ==> !In(l.reservations[k], a, m)
    ensures WithinBudget(l, a, m, budget)
  {
    UnreservedBounds(l, l.usages, a, m);
    NothingHeld(l, l.reservations, a, m);
  }

  /**
   Budget safety: while one budget governs a month, no run lets spent plus reserved exceed that budget
   by more than settled costs exceeded their reservations plus the usage that settles none of the
   month's reservations. The run cannot replace the budget either.
   */
  lemma {:induction false} BudgetSafety(setup: seq<Event>, events: seq<Event>, a: Account, m: Month, i: nat)
    requires Governed(Run(setup), a, m, i)
    requires WithinBudget(Run(setup), a, m, Run(setup).budgets[a][i].amount)
    ensures var l := RunFrom(Run(setup), events);
            && Kept(l) && Governed(l, a, m, i) && l.budgets[a][i] == Run(setup).budgets[a][i]
            && WithinBudget(l, a, m, l.budgets[a][i].amount)
    decreases |events|
  {
    if events == [] {
      RunKeeps(setup);
    } else {
      BudgetSafety(setup, events[..|events| - 1], a, m, i);
      var before := RunFrom(Run(setup), events[..|events| - 1]);
      StepKeeps(before, events[|events| - 1]);
      StepStaysWithin(before, events[|events| - 1], a, m, i);
    }
  }

  /******* The repository, updated in place *******/

  class Repository {
    var reservations: seq<Reservation>
    var usages: seq<Usage>
    var budgets: map<Account, seq<Validity.Entry>>

    constructor ()
      ensures Model() == EMPTY
    {
      reservations, usages, budgets := [], [], map[];
    }

    function Model(): Ledger
      reads this
    {
      Ledger(reservations, usages, budgets)
    }

    /** Sums the rows of both tables that belong to the month. */
    method LlmBudgetBalance(a: Account, m: Month) returns (b: Balance)
      ensures b == BalanceOf(Model(), a, m)
    {
      var spent, reserved, uncertain, reconciled := 0.0, 0.0, 0.0, 0.0;
      for i := 0 to |usages|
        invariant spent == SumBy(usages[..i], Used(a, m))
      {
        SumStep(usages, i, Used(a, m));
        if Charged(usages[i], a, m) {
          spent := spent + UsageCost(usages[i]);
        }
      }
      assert usages[..|usages|] == usages;
      ghost var used := spent;
      for i := 0 to |reservations|
        invariant reserved == SumBy(reservations[..i], Held(a, m))
        invariant uncertain == SumBy(reservations[..i], HeldUncertain(a, m))
        invariant reconciled == SumBy(reservations[..i], Reconciled(a, m))
        invariant spent == used + reconciled
      {
        var r := reservations[i];
        SumStep(reservations, i, Held(a, m));
        SumStep(reservations, i, HeldUncertain(a, m));
        SumStep(reservations, i, Reconciled(a, m));
        if In(r, a, m) {
          if Live(r) {
            reserved := reserved + Amount(r);
            if r.phase == Uncertain {
              uncertain := uncertain + Amount(r);
            }
          } else if r.phase == Settled && r.usageId.None? {
            spent := spent + Amount(r);
            reconciled := reconciled + Amount(r);
          }
        }
      }
      assert reservations[..|reservations|] == reservations;
      b := Balance(spent, reserved, uncertain, reconciled);
    }

    method ReserveLlmBudget(r: Reservation) returns (error: Option<Error>)
      modifies this`reservations
      ensures Model() == Step(old(Model()), ReserveEvent(r))
      ensures error == Failure(old(Reserve(Model(), r)))
    {
      if r.phase != Reserved || r.actual.Some? || r.amount < 0.0 || r.period != MonthOf(r.created) {
        return Some(BadCall);
      }
      var budget := BudgetAt(Model(), r.account, r.created);
      var balance := LlmBudgetBalance(r.account, r.period);
      if budget.Some? && balance.spent + balance.reserved + r.amount > budget.value.amount {
        return Some(Unavailable);
      }
      if exists x <- reservations :: x.id == r.id {
        return Some(Duplicate);
      }
      reservations := reservations + [r.(usageId := None)];
      error := None;
    }

    method StartLlmBudgetReservation(tenant: string, id: Id, now: int) returns (error: Option<Error>)
      modifies this`reservations
      ensures Model() == Step(old(Model()), StartEvent(tenant, id, now))
      ensures error == Failure(old(Start(Model(), tenant, id, now)))
    {
      var i := Find(reservations, tenant, id);
      if i == |reservations| || reservations[i].phase != Reserved {
        return Some(Conflict);
      }
      reservations := reservations[i := reservations[i].(phase := InFlight, updated := now)];
      error := None;
    }

    method MarkLlmBudgetUncertain(tenant: string, id: Id, now: int)
      modifies this`reservations
      ensures Model() == Step(old(Model()), UncertainEvent(tenant, id, now))
    {
      var i := Find(reservations, tenant, id);
      if i < |reservations| && (reservations[i].phase == Reserved || reservations[i].phase == InFlight) {
        reservations := reservations[i := reservations[i].(phase := Uncertain, updated := now)];
      }
    }

    method ReleaseUndispatchedLlmBudget(tenant: string, id: Id, now: int) returns (error: Option<Error>)
      modifies this`reservations
      ensures Model() == Step(old(Model()), ReleaseEvent(tenant, id, now))
      ensures error == Failure(old(Release(Model(), tenant, id, now)))
    {
      var i := Find(reservations, tenant, id);
      if i == |reservations| {
        return Some(NotFound);
      }
      if reservations[i].phase == Reserved || reservations[i].phase == InFlight {
        reservations := reservations[i := reservations[i].(phase := Released, actual := Some(0.0), updated := now)];
      }
      error := None;
    }

    method SettleLlmBudgetReservation(tenant: string, id: Id, u: Usage, now: int) returns (error: Option<Error>)
      modifies this`reservations, this`usages
      ensures Model() == Step(old(Model()), SettleEvent(tenant, id, u, now))
      ensures error == Failure(old(Settle(Model(), tenant, id, u, now)))
    {
      var i := Find(reservations, tenant, id);
      if i == |reservations| {
        return Some(NotFound);
      }
      var r := reservations[i];
      if !Matches(r, u) || u.actual.None? || u.actual.value < 0.0 {
        return Some(BadCall);
      }
      if r.phase == InFlight || r.phase == Uncertain {
        if UsageKnown(Model(), u.id) {
          return Some(Duplicate);
        }
        reservations := reservations[i := r.(phase := Settled, actual := u.actual, usageId := Some(u.id),
            updated := now)];
        usages := usages + [u];
      } else if r.usageId != Some(u.id) {
        return Some(Conflict);
      }
      error := None;
    }

    method ReconcileLlmBudgetReservation(tenant: string, id: Id, cost: real, actor: string, reason: string, now: int)
      returns (error: Option<Error>)
      modifies this`reservations
      ensures Model() == Step(old(Model()), ReconcileEvent(tenant, id, cost, actor, reason, now))
      ensures error == Failure(old(Reconcile(Model(), tenant, id, cost, actor, reason, now)))
    {
      if cost < 0.0 || Blank(actor) || Blank(reason) {
        return Some(BadCall);
      }
      var i := Find(reservations, tenant, id);
      if i == |reservations| {
        return Some(NotFound);
      }
      var r := reservations[i];
      if r.phase != Uncertain && (!Live(r) || r.updated >= now - HOUR) {
        return Some(Conflict);
      }
      var phase := if cost == 0.0 then Released else Settled;
      reservations := reservations[i := r.(phase := phase, actual := Some(cost), updated := now)];
      error := None;
    }

    method RecordLlmUsage(u: Usage) returns (error: Option<Error>)
      modifies this`usages
      ensures Model() == Step(old(Model()), UsageEvent(u))
      ensures error == Failure(old(RecordUsage(Model(), u)))
    {
      if exists x <- usages :: x.id == u.id {
        return Some(Duplicate);
      }
      usages := usages + [u];
      error := None;
    }

    method CreateTenantBudget(a: Account, e: Validity.Entry) returns (error: Option<Error>)
      modifies this`budgets
      ensures Model() == Step(old(Model()), BudgetEvent(a, e))
      ensures error == Failure(old(CreateBudget(Model(), a, e)))
    {
      if e.amount <= 0.0 || !e.Valid() {
        return Some(BadCall);
      }
      var inserted := Validity.Insert(if a in budgets then budgets[a] else [], e);
      if inserted.None? {
        return Some(BadCall);
      }
      budgets := budgets[a := inserted.value];
      error := None;
    }
  }

  function Failure(r: Result<Ledger, Error>): Option<Error> {
    if r.Err? then Some(r.error) else None
  }
}
