/** Whether the order in which automation's reports about one key arrive can change what is resolved. */
module ReportOrder {
  import opened Wrappers
  import opened Knowledge

  /** Distinct reports of automation about the key. */
  predicate Reports<P>(ps: seq<Proposal<P>>, key: Key) {
    && (forall i :: 0 <= i < |ps| ==>
                      ps[i].key == key && ps[i].mode == Ordinary && Sound(ps[i].evidence) && FromService(ps[i]))
    && (forall i, j :: 0 <= i < j < |ps| ==> ps[i].evidence.id != ps[j].evidence.id)
  }

  /** The same reports in some order. */
  ghost predicate Reordered<P(!new)>(a: seq<Proposal<P>>, ps: seq<Proposal<P>>, key: Key) {
    Reports(a, key) && forall p :: p in a <==> p in ps
  }

  ghost predicate Equivalence<P(!new)>(same: (P, P) -> bool) {
    && (forall x :: same(x, x))
    && (forall x, y :: same(x, y) ==> same(y, x))
    && (forall x, y, z :: same(x, y) && same(y, z) ==> same(x, z))
  }

  function ResolutionAfter<P>(ps: seq<Proposal<P>>, key: Key, same: (P, P) -> bool): Option<Resolution<P>> {
    Current(Run(Empty(), ps, same), key)
  }

  function Final<P>(ps: seq<Proposal<P>>, key: Key, same: (P, P) -> bool): Option<Status> {
    var r := ResolutionAfter(ps, key, same);
    if r.None? then None else Some(r.value.status)
  }

  /******* What decides the result *******/

  ghost predicate Any<P>(ps: seq<Proposal<P>>, status: Status) {
    exists p <- ps :: p.evidence.status == status
  }

  ghost predicate Clash<P>(ps: seq<Proposal<P>>, status: Status, same: (P, P) -> bool) {
    exists a <- ps, b <- ps ::
      a.evidence.status == status && b.evidence.status == status && !same(a.evidence.payload, b.evidence.payload)
  }

  /** The reports before the first imported one. */
  function Before<P>(ps: seq<Proposal<P>>): (r: seq<Proposal<P>>)
    ensures |r| <= |ps| && r == ps[..|r|]
    ensures forall i :: 0 <= i < |r| ==> r[i].evidence.status != Imported
    ensures |r| < |ps| ==> ps[|r|].evidence.status == Imported
  {
    if ps == [] || ps[0].evidence.status == Imported then [] else [ps[0]] + Before(ps[1..])
  }

  ghost predicate Conflicted<P>(ps: seq<Proposal<P>>, same: (P, P) -> bool) {
    Clash(ps, Imported, same) || Clash(Before(ps), Inferred, same)
  }

  ghost function Top<P>(ps: seq<Proposal<P>>): Status {
    if Any(ps, Imported) then Imported else if Any(ps, Inferred) then Inferred else Unknown
  }

  /** Every report of this status says x. */
  ghost predicate Agrees<P>(ps: seq<Proposal<P>>, status: Status, x: P, same: (P, P) -> bool) {
    forall q <- ps :: q.evidence.status == status ==> same(x, q.evidence.payload)
  }

  ghost predicate Describes<P>(ps: seq<Proposal<P>>, r: Option<Resolution<P>>, same: (P, P) -> bool) {
    if r.None? then ps == []
    else
      && ps != []
      && r.value.status == (if Conflicted(ps, same) then Conflicting else Top(ps))
      && (r.value.status == Inferred || r.value.status == Imported ==>
            Agrees(ps, r.value.status, r.value.payload, same))
  }

  lemma InAppend<P>(ps: seq<Proposal<P>>, p: Proposal<P>)
    ensures forall q :: q in ps + [p] <==> q in ps || q == p
  {
  }

  lemma AnyAppend<P>(ps: seq<Proposal<P>>, p: Proposal<P>, status: Status)
    ensures Any(ps + [p], status) <==> Any(ps, status) || p.evidence.status == status
  {
    InAppend(ps, p);
  }

  lemma AgreesAppend<P>(ps: seq<Proposal<P>>, p: Proposal<P>, status: Status, x: P, same: (P, P) -> bool)
    ensures Agrees(ps + [p], status, x, same)
            <==> Agrees(ps, status, x, same) && (p.evidence.status == status ==> same(x, p.evidence.payload))
  {
    InAppend(ps, p);
  }

  lemma AgreesSame<P(!new)>(ps: seq<Proposal<P>>, status: Status, x: P, y: P, same: (P, P) -> bool)
    requires Equivalence(same) && Agrees(ps, status, x, same)
    ensures same(x, y) ==> Agrees(ps, status, y, same)
    ensures Any(ps, status) ==> (same(x, y) <==> Agrees(ps, status, y, same))
  {
  }

  lemma BeforeAppend<P>(ps: seq<Proposal<P>>, p: Proposal<P>)
    ensures Before(ps + [p]) == if Any(ps, Imported) || p.evidence.status == Imported then Before(ps) else ps + [p]
    ensures !Any(ps, Imported) ==> Before(ps) == ps
  {
    var all, b, c := ps + [p], Before(ps), Before(ps + [p]);
    assert all[..|ps|] == ps && all[|ps|] == p;
    if |b| < |ps| {
      assert ps[|b|] in ps && all[|b|] == ps[|b|];
      assert forall i :: 0 <= i < |b| ==> all[i] == b[i];
      assert |c| == |b|;
    } else {
      assert forall i :: 0 <= i < |ps| ==> all[i] == ps[i];
      assert |c| >= |ps|;
      assert |c| == |ps| <==> p.evidence.status == Imported;
    }
  }

  lemma ClashAppend<P(!new)>(ps: seq<Proposal<P>>, p: Proposal<P>, status: Status, same: (P, P) -> bool)
    requires Equivalence(same)
    ensures Clash(ps + [p], status, same)
            <==> Clash(ps, status, same)
                 || (p.evidence.status == status && !Agrees(ps, status, p.evidence.payload, same))
  {
    InAppend(ps, p);
    assert p in ps + [p];
  }

  lemma ConflictedAppend<P(!new)>(ps: seq<Proposal<P>>, p: Proposal<P>, same: (P, P) -> bool)
    requires Equivalence(same)
    ensures Conflicted(ps + [p], same)
            <==> || Conflicted(ps, same)
                 || (p.evidence.status == Imported && !Agrees(ps, Imported, p.evidence.payload, same))
                 || (p.evidence.status == Inferred && !Any(ps, Imported)
                     && !Agrees(ps, Inferred, p.evidence.payload, same))
  {
    BeforeAppend(ps, p);
    ClashAppend(ps, p, Imported, same);
    ClashAppend(ps, p, Inferred, same);
  }

  lemma NoneAgrees<P>(ps: seq<Proposal<P>>, status: Status, x: P, same: (P, P) -> bool)
    requires !Any(ps, status)
    ensures Agrees(ps, status, x, same)
  {
  }

  ghost predicate Report<P>(p: Proposal<P>) {
    p.mode == Ordinary && Sound(p.evidence) && FromService(p)
  }

  lemma NextAfterNothing<P(!new)>(
      ps: seq<Proposal<P>>, p: Proposal<P>, r: Option<Resolution<P>>, same: (P, P) -> bool)
    requires Equivalence(same) && Describes(ps, r, same) && Report(p)
    requires r.Some? ==> r.value.status == Unknown
    ensures Describes(ps + [p], Outcome(Pending(p, r), same), same)
  {
    ConflictedAppend(ps, p, same);
    AnyAppend(ps, p, Imported);
    AnyAppend(ps, p, Inferred);
    AgreesAppend(ps, p, p.evidence.status, p.evidence.payload, same);
    if r.None? {
      assert !Conflicted(ps, same) by { assert Before(ps) == []; }
    }
  }

  lemma NextAfterInferred<P(!new)>(ps: seq<Proposal<P>>, p: Proposal<P>, r: Resolution<P>, same: (P, P) -> bool)
    requires Equivalence(same) && Describes(ps, Some(r), same) && Report(p) && r.status == Inferred
    ensures var next := Outcome(Pending(p, Some(r)), same);
            Describes(ps + [p], if next.None? then Some(r) else next, same)
  {
    ConflictedAppend(ps, p, same);
    AnyAppend(ps, p, Imported);
    AnyAppend(ps, p, Inferred);
    AgreesSame(ps, Inferred, r.payload, p.evidence.payload, same);
    AgreesAppend(ps, p, Inferred, r.payload, same);
    AgreesAppend(ps, p, p.evidence.status, p.evidence.payload, same);
    NoneAgrees(ps, Imported, p.evidence.payload, same);
  }

  lemma NextAfterImported<P(!new)>(ps: seq<Proposal<P>>, p: Proposal<P>, r: Resolution<P>, same: (P, P) -> bool)
    requires Equivalence(same) && Describes(ps, Some(r), same) && Report(p) && r.status == Imported
    ensures var next := Outcome(Pending(p, Some(r)), same);
            Describes(ps + [p], if next.None? then Some(r) else next, same)
  {
    ConflictedAppend(ps, p, same);
    AnyAppend(ps, p, Imported);
    AgreesSame(ps, Imported, r.payload, p.evidence.payload, same);
    AgreesAppend(ps, p, Imported, r.payload, same);
    AgreesAppend(ps, p, Imported, p.evidence.payload, same);
  }

  lemma NextDescribes<P(!new)>(
      ps: seq<Proposal<P>>, p: Proposal<P>, r: Option<Resolution<P>>, same: (P, P) -> bool)
    requires Equivalence(same) && Describes(ps, r, same) && Report(p)
    ensures var next := Outcome(Pending(p, r), same);
            Describes(ps + [p], if next.None? then r else next, same)
  {
    if r.None? || r.value.status == Unknown {
      NextAfterNothing(ps, p, r, same);
    } else if r.value.status == Inferred {
      NextAfterInferred(ps, p, r.value, same);
    } else if r.value.status == Imported {
      NextAfterImported(ps, p, r.value, same);
    } else {
      ConflictedAppend(ps, p, same);
    }
  }

  lemma {:induction false} RunDescribes<P(!new)>(ps: seq<Proposal<P>>, key: Key, same: (P, P) -> bool)
    requires Equivalence(same) && Reports(ps, key)
    ensures Describes(ps, ResolutionAfter(ps, key, same), same)
    ensures forall id <- Run(Empty(), ps, same).evidence :: exists i :: 0 <= i < |ps| && ps[i].evidence.id == id
  {
    if ps != [] {
      var n := |ps| - 1;
      RunDescribes(ps[..n], key, same);
      NextDescribes(ps[..n], ps[n], ResolutionAfter(ps[..n], key, same), same);
      assert ps[..n] + [ps[n]] == ps;
      assert forall i :: 0 <= i < n ==> ps[..n][i] == ps[i];
      assert ps[n].evidence.id !in Run(Empty(), ps[..n], same).evidence;
    }
  }

  /******* Reordering *******/

  lemma SameKinds<P(!new)>(a: seq<Proposal<P>>, ps: seq<Proposal<P>>, key: Key, same: (P, P) -> bool)
    requires Reordered(a, ps, key)
    ensures a == [] <==> ps == []
    ensures forall status :: Any(a, status) == Any(ps, status) && Clash(a, status, same) == Clash(ps, status, same)
  {
    if a != [] {
      assert a[0] in ps;
    }
    if ps != [] {
      assert ps[0] in a;
    }
  }

  lemma BeforeClashes<P>(ps: seq<Proposal<P>>, same: (P, P) -> bool)
    ensures Clash(Before(ps), Inferred, same) ==> Clash(ps, Inferred, same)
    ensures !Any(ps, Imported) ==> Before(ps) == ps
  {
    assert forall p <- Before(ps) :: p in ps;
    if |Before(ps)| < |ps| {
      assert ps[|Before(ps)|] in ps;
    }
  }

  function Filtered<P(!new)>(ps: seq<Proposal<P>>, imported: bool): (r: seq<Proposal<P>>)
    ensures forall p :: p in r <==> p in ps && (p.evidence.status == Imported) == imported
  {
    if ps == [] then []
    else
      var n := |ps| - 1;
      var rest := Filtered(ps[..n], imported);
      assert ps == ps[..n] + [ps[n]];
      if (ps[n].evidence.status == Imported) == imported then rest + [ps[n]] else rest
  }

  lemma {:induction false} FilteredReports<P(!new)>(ps: seq<Proposal<P>>, key: Key, imported: bool)
    requires Reports(ps, key)
    ensures Reports(Filtered(ps, imported), key)
  {
    if ps != [] {
      var n := |ps| - 1;
      FilteredReports(ps[..n], key, imported);
      forall p | p in Filtered(ps[..n], imported) ensures p.evidence.id != ps[n].evidence.id {
        EarlierDiffers(ps, p);
      }
    }
  }

  lemma EarlierDiffers<P>(ps: seq<Proposal<P>>, p: Proposal<P>)
    requires ps != [] && p in ps[..|ps| - 1]
    requires forall i, j :: 0 <= i < j < |ps| ==> ps[i].evidence.id != ps[j].evidence.id
    ensures p.evidence.id != ps[|ps| - 1].evidence.id
  {
    var k :| 0 <= k < |ps| - 1 && ps[..|ps| - 1][k] == p;
    assert ps[k] == p;
  }

  lemma FilteredReorders<P(!new)>(ps: seq<Proposal<P>>, key: Key, first: bool)
    requires Reports(ps, key)
    ensures Reordered(Filtered(ps, first) + Filtered(ps, !first), ps, key)
  {
    FilteredReports(ps, key, first);
    FilteredReports(ps, key, !first);
    var a, b := Filtered(ps, first), Filtered(ps, !first);
    forall i, j | 0 <= i < |a| && 0 <= j < |b| ensures a[i].evidence.id != b[j].evidence.id {
      assert a[i] in ps && b[j] in ps;
      var k, l :| 0 <= k < |ps| && 0 <= l < |ps| && ps[k] == a[i] && ps[l] == b[j];
      assert k != l;
    }
  }

  /** Imported first prevails; imported last meets the conflict of the others. */
  lemma TwoOrders<P(!new)>(ps: seq<Proposal<P>>, key: Key, same: (P, P) -> bool)
    requires Equivalence(same) && Reports(ps, key)
    requires Any(ps, Imported) && !Clash(ps, Imported, same) && Clash(ps, Inferred, same)
    ensures Filtered(ps, true) != [] && Filtered(ps, true)[0] in Filtered(ps, true)
    ensures var first, last := Filtered(ps, true) + Filtered(ps, false), Filtered(ps, false) + Filtered(ps, true);
            && Reordered(first, ps, key) && Reordered(last, ps, key)
            && Final(first, key, same) == Some(Imported) && Final(last, key, same) == Some(Conflicting)
  {
    var a, b := Filtered(ps, true), Filtered(ps, false);
    FilteredReorders(ps, key, true);
    FilteredReorders(ps, key, false);
    SameKinds(a + b, ps, key, same);
    SameKinds(b + a, ps, key, same);
    RunDescribes(a + b, key, same);
    RunDescribes(b + a, key, same);
    ImportedFirst(a, b, same);
    ImportedLast(ps, same);
  }

  lemma ImportedFirst<P>(a: seq<Proposal<P>>, b: seq<Proposal<P>>, same: (P, P) -> bool)
    requires a != [] && a[0].evidence.status == Imported
    ensures !Clash(Before(a + b), Inferred, same)
  {
    assert Before(a + b) == [];
  }

  lemma ImportedLast<P(!new)>(ps: seq<Proposal<P>>, same: (P, P) -> bool)
    requires Clash(ps, Inferred, same)
    ensures Clash(Before(Filtered(ps, false) + Filtered(ps, true)), Inferred, same)
  {
    var a, b := Filtered(ps, true), Filtered(ps, false);
    var before := Before(b + a);
    assert |b| <= |before| by {
      assert forall i :: 0 <= i < |b| ==> (b + a)[i] == b[i] && b[i] in b;
    }
    assert b == before[..|b|];
    var x, y :| x in ps && y in ps && x.evidence.status == Inferred && y.evidence.status == Inferred
                && !same(x.evidence.payload, y.evidence.payload);
    assert x in b && y in b && x in before && y in before;
  }

  ghost predicate OrderDecides<P(!new)>(ps: seq<Proposal<P>>, key: Key, same: (P, P) -> bool) {
    exists a, b :: Reordered(a, ps, key) && Reordered(b, ps, key) && Final(a, key, same) != Final(b, key, same)
  }

  /** Two orders of automation's reports about a new key can end in different statuses if and only if there
      is an imported report, no two imported ones contradict, and two inferred ones do. */
  lemma OrderMatters<P(!new)>(ps: seq<Proposal<P>>, key: Key, same: (P, P) -> bool)
    requires Equivalence(same) && Reports(ps, key)
    ensures OrderDecides(ps, key, same)
            <==> Any(ps, Imported) && !Clash(ps, Imported, same) && Clash(ps, Inferred, same)
  {
    if Any(ps, Imported) && !Clash(ps, Imported, same) && Clash(ps, Inferred, same) {
      TwoOrders(ps, key, same);
    } else {
      forall a, b | Reordered(a, ps, key) && Reordered(b, ps, key) ensures Final(a, key, same) == Final(b, key, same) {
        OrderIsIrrelevant(a, ps, key, same);
        OrderIsIrrelevant(b, ps, key, same);
      }
    }
  }

  lemma OrderIsIrrelevant<P(!new)>(a: seq<Proposal<P>>, ps: seq<Proposal<P>>, key: Key, same: (P, P) -> bool)
    requires Equivalence(same) && Reordered(a, ps, key)
    requires !(Any(ps, Imported) && !Clash(ps, Imported, same) && Clash(ps, Inferred, same))
    ensures Final(a, key, same)
            == if ps == [] then None
               else if Clash(ps, Imported, same) || Clash(ps, Inferred, same) then Some(Conflicting)
               else Some(Top(ps))
  {
    RunDescribes(a, key, same);
    SameKinds(a, ps, key, same);
    BeforeClashes(a, same);
  }
}
