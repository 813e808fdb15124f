/** The cost service above the ledger: authorization of an estimate and the monthly summary. */
module FinOps {
  import opened Wrappers
  import opened Sums
  import opened IsoTime
  import opened BudgetLedger

  /******* Authorization *******/

  datatype Decision = Decision(allowed: bool, budget: Option<real>, projected: real, remaining: Option<real>)

  function Authorize(l: Ledger, a: Account, amount: real, at: Instant): Decision {
    var budget := BudgetAt(l, a, at);
    var balance := BalanceOf(l, a, MonthOf(at));
    var projected := balance.spent + balance.reserved + amount;
    if budget.None? then Decision(true, None, projected, None)
    else
      Decision(projected <= budget.value.amount, Some(budget.value.amount), projected,
               Some(Over(budget.value.amount - projected)))
  }

  /** Authorization and reservation agree: an estimate is allowed exactly when reserving it at the same
      instant would not be refused for lack of budget. */
  lemma AuthorizeMeansReservable(l: Ledger, r: Reservation)
    requires ReservationKept(r) && r.phase == Reserved
    ensures Authorize(l, r.account, r.amount, r.created).allowed <==> Reserve(l, r) != Err(Unavailable)
  {
  }

  /** What an allowed estimate leaves is what can still be reserved beside it, and a refused one leaves
      nothing; without a budget everything is allowed. */
  lemma RemainingIsReservable(l: Ledger, a: Account, amount: real, at: Instant, more: real)
    requires more > 0.0
    ensures var d, budget := Authorize(l, a, amount, at), BudgetAt(l, a, at);
            && d.projected == BalanceOf(l, a, MonthOf(at)).spent + BalanceOf(l, a, MonthOf(at)).reserved + amount
            && (d.remaining.Some? <==> budget.Some?)
            && (budget.None? ==> d.allowed && d.budget.None?)
            && (budget.Some? ==>
                  && d.budget == Some(budget.value.amount) && d.remaining.value >= 0.0
                  && (d.allowed <==> d.projected <= budget.value.amount)
                  && (Authorize(l, a, amount + more, at).allowed <==> d.allowed && more <= d.remaining.value)
                  && (!d.allowed ==> d.remaining.value == 0.0))
  {
  }

  /******* Monthly summary *******/

  datatype Key = Key(provider: string, model: string, purpose: string)

  datatype Line = Line(key: Key, events: nat, inputTokens: nat, cachedTokens: nat, outputTokens: nat, cost: real)

  function KeyOf(u: Usage): Key {
    Key(u.provider, u.model, u.purpose)
  }

  /** The cost an event is listed with, if it has one: another currency, no amount at all, or a
      negative amount leaves it unpriced. */
  function EventCost(u: Usage, currency: string): Option<real> {
    if u.currency != Some(currency) then None
    else
      var value := if u.actual.Some? then u.actual else u.estimated;
      if value.Some? && value.value >= 0.0 then value else None
  }

  predicate InPeriod(u: Usage, a: Account, m: Month) {
    u.tenant == a.tenant && MonthOf(u.created) == m
  }

  predicate Priced(u: Usage, a: Account, m: Month) {
    InPeriod(u, a, m) && EventCost(u, a.currency).Some?
  }

  predicate Unpriced(u: Usage, a: Account, m: Month) {
    InPeriod(u, a, m) && EventCost(u, a.currency).None? && (u.currency.None? || u.currency == Some(a.currency))
  }

  /** Which events of the month are priced and which are counted as unpriced: those of another currency are
      neither, the others are priced if they have a cost that is not negative. */
  lemma PricedExactly(u: Usage, a: Account, m: Month)
    ensures var ours := u.tenant == a.tenant && u.created.year == m.year && u.created.month == m.month;
            var cost := if u.actual.Some? then u.actual else u.estimated;
            && (Priced(u, a, m) <==> ours && u.currency == Some(a.currency) && cost.Some? && cost.value >= 0.0)
            && (Priced(u, a, m) ==> EventCost(u, a.currency) == cost)
            && (Unpriced(u, a, m)
                <==> ours && (u.currency.None?
                              || (u.currency == Some(a.currency) && (cost.Some? ==> cost.value < 0.0))))
  {
  }

  function LineIndex(lines: seq<Line>, k: Key): (i: nat)
    ensures i <= |lines|
    ensures i < |lines| ==> lines[i].key == k
    ensures forall j :: 0 <= j < i ==> lines[j].key != k
  {
    if lines == [] || lines[0].key == k then 0 else 1 + LineIndex(lines[1..], k)
  }

  function Enlarged(line: Line, u: Usage, cost: real): Line {
    Line(line.key, line.events + 1, line.inputTokens + u.inputTokens, line.cachedTokens + u.cachedTokens,
         line.outputTokens + u.outputTokens, line.cost + cost)
  }

  function AddEvent(lines: seq<Line>, u: Usage, cost: real): seq<Line> {
    var i := LineIndex(lines, KeyOf(u));
    if i < |lines| then lines[i := Enlarged(lines[i], u, cost)]
    else lines + [Enlarged(Line(KeyOf(u), 0, 0, 0, 0, 0.0), u, cost)]
  }

  function Breakdown(us: seq<Usage>, a: Account, m: Month): seq<Line> {
    if us == [] then []
    else
      var earlier, u := Breakdown(us[..|us| - 1], a, m), us[|us| - 1];
      if Priced(u, a, m) then AddEvent(earlier, u, EventCost(u, a.currency).value) else earlier
  }

  function LineCost(): Line -> real {
    (line: Line) => line.cost
  }

  function LineEvents(): Line -> real {
    (line: Line) => line.events as real
  }

  function PricedCost(a: Account, m: Month): Usage -> real {
    u => if Priced(u, a, m) then EventCost(u, a.currency).value else 0.0
  }

  function PricedOne(a: Account, m: Month): Usage -> real {
    u => if Priced(u, a, m) then 1.0 else 0.0
  }

  datatype Column = Events | Input | Cached | Output | Cost

  function Entered(line: Line, c: Column): real {
    match c
    case Events => line.events as real
    case Input => line.inputTokens as real
    case Cached => line.cachedTokens as real
    case Output => line.outputTokens as real
    case Cost => line.cost
  }

  /** What an event contributes to a column of the line with this key. */
  function Share(a: Account, m: Month, k: Key, c: Column): Usage -> real {
    u =>
      if KeyOf(u) != k || !Priced(u, a, m) then 0.0
      else
        match c
        case Events => 1.0
        case Input => u.inputTokens as real
        case Cached => u.cachedTokens as real
        case Output => u.outputTokens as real
        case Cost => EventCost(u, a.currency).value
  }

  lemma AddEventSums(lines: seq<Line>, u: Usage, cost: real)
    ensures SumBy(AddEvent(lines, u, cost), LineCost()) == SumBy(lines, LineCost()) + cost
    ensures SumBy(AddEvent(lines, u, cost), LineEvents()) == SumBy(lines, LineEvents()) + 1.0
  {
    var i := LineIndex(lines, KeyOf(u));
    if i < |lines| {
      SumUpdate(lines, i, Enlarged(lines[i], u, cost), LineCost());
      SumUpdate(lines, i, Enlarged(lines[i], u, cost), LineEvents());
    } else {
      var added := Enlarged(Line(KeyOf(u), 0, 0, 0, 0, 0.0), u, cost);
      SumAppend(lines, added, LineCost());
      SumAppend(lines, added, LineEvents());
    }
  }

  /** The lines add up to the priced events, in money and in number. */
  lemma {:induction false} BreakdownSums(us: seq<Usage>, a: Account, m: Month)
    ensures SumBy(Breakdown(us, a, m), LineCost()) == SumBy(us, PricedCost(a, m))
    ensures SumBy(Breakdown(us, a, m), LineEvents()) == SumBy(us, PricedOne(a, m))
  {
    if us != [] {
      var rest, u := us[..|us| - 1], us[|us| - 1];
      BreakdownSums(rest, a, m);
      if Priced(u, a, m) {
        AddEventSums(Breakdown(rest, a, m), u, EventCost(u, a.currency).value);
      }
    }
  }

  predicate Groups(lines: seq<Line>, us: seq<Usage>, a: Account, m: Month) {
    && (forall i, j :: 0 <= i < j < |lines| ==> lines[i].key != lines[j].key)
    && (forall u <- us :: Priced(u, a, m) ==> LineIndex(lines, KeyOf(u)) < |lines|)
    && (forall i, c :: 0 <= i < |lines| ==> Entered(lines[i], c) == SumBy(us, Share(a, m, lines[i].key, c)))
  }

  /** The breakdown groups: one line per key, each priced event on its key's line, every column of a line
      the sum over its events. */
  lemma {:induction false} BreakdownGroups(us: seq<Usage>, a: Account, m: Month)
    ensures Groups(Breakdown(us, a, m), us, a, m)
  {
    if us != [] {
      var rest, u := us[..|us| - 1], us[|us| - 1];
      BreakdownGroups(rest, a, m);
      assert us == rest + [u];
      if Priced(u, a, m) {
        AddedLineSums(Breakdown(rest, a, m), rest, u, a, m);
      } else {
        UnpricedSums(Breakdown(rest, a, m), rest, u, a, m);
      }
    }
  }

  lemma UnpricedSums(lines: seq<Line>, rest: seq<Usage>, u: Usage, a: Account, m: Month)
    requires Groups(lines, rest, a, m) && !Priced(u, a, m)
    ensures Groups(lines, rest + [u], a, m)
  {
  }

  lemma AddedLineSums(before: seq<Line>, rest: seq<Usage>, u: Usage, a: Account, m: Month)
    requires Priced(u, a, m) && Groups(before, rest, a, m)
    ensures Groups(AddEvent(before, u, EventCost(u, a.currency).value), rest + [u], a, m)
  {
    var lines := AddEvent(before, u, EventCost(u, a.currency).value);
    forall x | x in rest + [u] && Priced(x, a, m) ensures LineIndex(lines, KeyOf(x)) < |lines| {
      var i := if KeyOf(x) == KeyOf(u) then LineIndex(before, KeyOf(u)) else LineIndex(before, KeyOf(x));
      assert lines[i].key == KeyOf(x);
    }
    forall i, c | 0 <= i < |lines| ensures Entered(lines[i], c) == SumBy(rest + [u], Share(a, m, lines[i].key, c)) {
      SumAppend(rest, u, Share(a, m, lines[i].key, c));
      var x := LineIndex(before, KeyOf(u));
      if i == |before| {
        assert forall y <- rest :: Priced(y, a, m) && KeyOf(y) == KeyOf(u) ==> LineIndex(before, KeyOf(y)) == x;
        NoneOfKey(rest, a, m, KeyOf(u), c);
      } else if i != x {
        assert lines[i] == before[i];
        assert lines[i].key != KeyOf(u);
        assert Share(a, m, lines[i].key, c)(u) == 0.0;
      } else {
        assert lines[i] == Enlarged(before[i], u, EventCost(u, a.currency).value);
      }
    }
  }

  lemma {:induction false} NoneOfKey(us: seq<Usage>, a: Account, m: Month, k: Key, c: Column)
    requires forall x <- us :: Priced(x, a, m) ==> KeyOf(x) != k
    ensures SumBy(us, Share(a, m, k, c)) == 0.0
  {
    if us != [] {
      NoneOfKey(us[..|us| - 1], a, m, k, c);
      assert us[|us| - 1] in us;
      assert Share(a, m, k, c)(us[|us| - 1]) == 0.0;
    }
  }

  /** What the flat balance charges for an event beyond what the breakdown lists. */
  function Difference(a: Account, m: Month): Usage -> real {
    u => Used(a, m)(u) - PricedCost(a, m)(u)
  }

  /** An event is charged exactly as it is listed, except for a negative cost, which is charged but not
      listed, and for an event whose text shows another month than its instant. */
  lemma EventDiffersExactly(u: Usage, a: Account, m: Month)
    ensures Difference(a, m)(u) == 0.0
            <==> u.tenant == a.tenant && u.currency == Some(a.currency) ==>
                   if MonthOf(u.wall) == m then
                     (if MonthOf(u.created) == m then UsageCost(u) >= 0.0 else UsageCost(u) == 0.0)
                   else MonthOf(u.created) == m ==> UsageCost(u) <= 0.0
    ensures (MonthOf(u.wall) == m <==> MonthOf(u.created) == m) ==> Difference(a, m)(u) <= 0.0
  {
    assert Used(a, m)(u) == if Charged(u, a, m) then UsageCost(u) else 0.0;
    assert PricedCost(a, m)(u) == if Priced(u, a, m) then EventCost(u, a.currency).value else 0.0;
    assert Difference(a, m)(u) == Used(a, m)(u) - PricedCost(a, m)(u);
  }

  /** The stored text shows the month exactly when the instant falls in it. */
  predicate MonthShown(us: seq<Usage>, a: Account, m: Month) {
    forall u <- us :: u.tenant == a.tenant && u.currency == Some(a.currency) ==>
                        (MonthOf(u.wall) == m <==> MonthOf(u.created) == m)
  }

  lemma {:induction false} DifferenceSum(us: seq<Usage>, a: Account, m: Month)
    requires MonthShown(us, a, m)
    ensures SumBy(us, Difference(a, m)) <= 0.0
    ensures SumBy(us, Difference(a, m)) == 0.0 <==> forall u <- us :: !(Charged(u, a, m) && UsageCost(u) < 0.0)
  {
    if us != [] {
      var u := us[|us| - 1];
      DifferenceSum(us[..|us| - 1], a, m);
      assert us == us[..|us| - 1] + [u];
      EventDiffersExactly(u, a, m);
      assert u.tenant != a.tenant || u.currency != Some(a.currency) ==> Difference(a, m)(u) == 0.0;
    }
  }

  /** The breakdown plus what operators reconciled misses the total of the flat balance by exactly the
      events' differences. Where texts show the month of their instant it is the total if and only if no
      event charged to the month has a negative cost. */
  lemma BreakdownAgreesWithBalance(l: Ledger, a: Account, m: Month)
    ensures SumBy(Breakdown(l.usages, a, m), LineCost()) + BalanceOf(l, a, m).reconciled
            + SumBy(l.usages, Difference(a, m)) == BalanceOf(l, a, m).spent
    ensures MonthShown(l.usages, a, m) ==>
              (SumBy(Breakdown(l.usages, a, m), LineCost()) + BalanceOf(l, a, m).reconciled == BalanceOf(l, a, m).spent
               <==> forall u <- l.usages :: !(Charged(u, a, m) && UsageCost(u) < 0.0))
  {
    BreakdownSums(l.usages, a, m);
    SumAdds(l.usages, PricedCost(a, m), Difference(a, m), Used(a, m));
    if MonthShown(l.usages, a, m) {
      DifferenceSum(l.usages, a, m);
    }
  }

  /******* Cost texts *******/

  /** A stored cost: the column is empty, holds an empty text, a number, or something else. */
  datatype Cell = Absent | Blank | Number(value: real) | Garbage

  /** The balance takes the first text that is not empty, else zero; None when that is not a number, and
      the whole balance raises. */
  function Charge(actual: Cell, estimated: Cell): Option<real> {
    var cell := if actual.Absent? || actual.Blank? then estimated else actual;
    match cell
    case Number(x) => Some(x)
    case Garbage => None
    case _ => Some(0.0)
  }

  /** The summary takes the actual cost if there is one at all, and leaves the event unpriced if that is
      no number or negative. */
  function Listed(actual: Cell, estimated: Cell): Option<real> {
    var cell := if actual.Absent? then estimated else actual;
    if cell.Number? && cell.value >= 0.0 then Some(cell.value) else None
  }

  predicate Parseable(c: Cell) {
    c.Absent? || c.Number?
  }

  function Parsed(c: Cell): Option<real> {
    if c.Number? then Some(c.value) else None
  }

  /** For parseable texts these are the costs of the ledger and of the breakdown. */
  lemma ParseableCosts(u: Usage, currency: string, actual: Cell, estimated: Cell)
    requires Parseable(actual) && Parseable(estimated)
    requires u.currency == Some(currency) && u.actual == Parsed(actual) && u.estimated == Parsed(estimated)
    ensures Charge(actual, estimated) == Some(UsageCost(u)) && Listed(actual, estimated) == EventCost(u, currency)
  {
  }

  /** Charged as listed, an unpriced event as zero: exactly for no cost or one that is not negative, and
      for an empty actual text over no estimate or an estimate of zero. */
  lemma CostTextsAgreeExactly(actual: Cell, estimated: Cell)
    ensures var listed := Listed(actual, estimated);
            Charge(actual, estimated) == Some(if listed.Some? then listed.value else 0.0)
            <==> match actual
                 case Number(x) => x >= 0.0
                 case Garbage => false
                 case Absent => !estimated.Garbage? && (estimated.Number? ==> estimated.value >= 0.0)
                 case Blank => !estimated.Garbage? && (estimated.Number? ==> estimated.value == 0.0)
  {
  }

  /** The inputs that break the agreement: an empty actual text is charged at the estimate and listed as
      unpriced, and a text that is no number stops the balance though the event is merely unpriced. */
  lemma UnparseableCostsDisagree(x: real, other: Cell)
    requires x > 0.0
    ensures Charge(Blank, Number(x)) == Some(x) && Listed(Blank, Number(x)) == None
    ensures Charge(Garbage, other) == None && Listed(Garbage, other) == None
  {
  }

  /** An event whose text shows another month than its instant is listed in one month and charged to
      the other. */
  lemma OffsetTextBreaksAgreement(u: Usage, a: Account)
    requires u.tenant == a.tenant && u.currency == Some(a.currency) && UsageCost(u) > 0.0
    requires MonthOf(u.wall) != MonthOf(u.created)
    ensures var l := EMPTY.(usages := [u]);
            var m := MonthOf(u.created);
            && SumBy(Breakdown(l.usages, a, m), LineCost()) == UsageCost(u)
            && BalanceOf(l, a, m).spent + BalanceOf(l, a, m).reconciled == 0.0
  {
    var m := MonthOf(u.created);
    BreakdownSums([u], a, m);
    SumAppend([], u, PricedCost(a, m));
    SumAppend([], u, Used(a, m));
    assert [] + [u] == [u];
  }

  datatype Summary = Summary(
    total: real, budget: Option<real>, remaining: Option<real>, priced: nat, unpriced: nat,
    breakdown: seq<Line>, reserved: real, uncertain: real, reconciled: real)

  function CountUnpriced(us: seq<Usage>, a: Account, m: Month): nat {
    if us == [] then 0
    else CountUnpriced(us[..|us| - 1], a, m) + if Unpriced(us[|us| - 1], a, m) then 1 else 0
  }

  lemma OneMoreRow(us: seq<Usage>, i: nat, a: Account, m: Month)
    requires i < |us|
    ensures SumBy(us[..i + 1], PricedOne(a, m)) == SumBy(us[..i], PricedOne(a, m)) + PricedOne(a, m)(us[i])
    ensures Breakdown(us[..i + 1], a, m)
            == if Priced(us[i], a, m) then AddEvent(Breakdown(us[..i], a, m), us[i], EventCost(us[i], a.currency).value)
               else Breakdown(us[..i], a, m)
    ensures CountUnpriced(us[..i + 1], a, m) == CountUnpriced(us[..i], a, m) + if Unpriced(us[i], a, m) then 1 else 0
  {
    assert us[..i + 1][..i] == us[..i];
    SumStep(us, i, PricedOne(a, m));
  }

  /** An event of the month in no currency or in the account's. */
  function Considered(a: Account, m: Month): Usage -> real {
    (u: Usage) =>
      if u.tenant == a.tenant && MonthOf(u.created) == m && (u.currency.None? || u.currency == Some(a.currency))
      then 1.0 else 0.0
  }

  /** Every such event is counted once, as priced or as unpriced. */
  lemma {:induction false} CountsAddUp(us: seq<Usage>, a: Account, m: Month)
    ensures SumBy(us, PricedOne(a, m)) + CountUnpriced(us, a, m) as real == SumBy(us, Considered(a, m))
  {
    if us != [] {
      CountsAddUp(us[..|us| - 1], a, m);
      PricedExactly(us[|us| - 1], a, m);
    }
  }

  /** The loop over the tenant's events. */
  method Collect(us: seq<Usage>, a: Account, m: Month) returns (lines: seq<Line>, priced: nat, unpriced: nat)
    ensures lines == Breakdown(us, a, m)
    ensures priced as real == SumBy(us, PricedOne(a, m))
    ensures unpriced == CountUnpriced(us, a, m)
  {
    lines, priced, unpriced := [], 0, 0;
    for i := 0 to |us|
      invariant lines == Breakdown(us[..i], a, m)
      invariant priced as real == SumBy(us[..i], PricedOne(a, m))
      invariant unpriced == CountUnpriced(us[..i], a, m)
    {
      OneMoreRow(us, i, a, m);
      if InPeriod(us[i], a, m) {
        var cost := EventCost(us[i], a.currency);
        if cost.None? {
          if us[i].currency.None? || us[i].currency == Some(a.currency) {
            unpriced := unpriced + 1;
          }
        } else {
          priced := priced + 1;
          lines := AddEvent(lines, us[i], cost.value);
        }
      }
    }
    assert us[..|us|] == us;
  }

  method Summarize(l: Ledger, a: Account, at: Instant) returns (s: Summary)
    ensures var m := MonthOf(at);
            && s.breakdown == Breakdown(l.usages, a, m)
            && s.priced as real == SumBy(s.breakdown, LineEvents())
            && s.unpriced == CountUnpriced(l.usages, a, m)
            && (s.priced + s.unpriced) as real == SumBy(l.usages, Considered(a, m))
            && BalanceOf(l, a, m) == Balance(s.total, s.reserved, s.uncertain, s.reconciled)
    ensures s.budget.Some? <==> BudgetAt(l, a, at).Some?
    ensures s.budget.Some? ==> s.budget.value == BudgetAt(l, a, at).value.amount
                               && s.remaining == Some(Over(s.budget.value - s.total - s.reserved))
    ensures s.budget.None? ==> s.remaining == None
  {
    var m := MonthOf(at);
    var lines, priced, unpriced := Collect(l.usages, a, m);
    BreakdownSums(l.usages, a, m);
    CountsAddUp(l.usages, a, m);
    var b := BalanceOf(l, a, m);
    var budget := BudgetAt(l, a, at);
    var amount := if budget.Some? then Some(budget.value.amount) else None;
    var remaining := if budget.Some? then Some(Over(budget.value.amount - b.spent - b.reserved)) else None;
    s := Summary(b.spent, amount, remaining, priced, unpriced, lines, b.reserved, b.uncertain, b.reconciled);
  }
}
