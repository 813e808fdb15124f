/**
 Prices and budgets with a period of validity: inserts that refuse an overlap, and the lookup of the
 one in force at an instant. Both compare stored texts.
 */
module Validity {
  import opened Wrappers
  import opened IsoTime

  /** In force from `start` on, and before `end` if there is one. */
  datatype Entry = Entry(start: Instant, end: Option<Instant>, amount: real) {
    predicate Valid() {
      end.Some? ==> Before(start, end.value)
    }
  }

  predicate Covers(e: Entry, at: Instant) {
    !Before(at, e.start) && (e.end.Some? ==> Before(at, e.end.value))
  }

  ghost predicate Overlaps(a: Entry, b: Entry) {
    exists at: Instant :: Covers(a, at) && Covers(b, at)
  }

  // Stands in for the missing end of an open-ended insert.
  const LAST := Civil(9999, 12, 31, 23, 59, 59, 0)

  /** Does a stored entry block the insert of a new one? */
  predicate Blocks(stored: Entry, e: Entry) {
    && LexLess(UtcIso(stored.start), UtcIso(if e.end.Some? then e.end.value else LAST))
    && (stored.end.None? || LexLess(UtcIso(e.start), UtcIso(stored.end.value)))
  }

  predicate Blocked(entries: seq<Entry>, e: Entry) {
    exists i | 0 <= i < |entries| :: Blocks(entries[i], e)
  }

  function Insert(entries: seq<Entry>, e: Entry): Option<seq<Entry>> {
    if Blocked(entries, e) then None else Some(entries + [e])
  }

  predicate InForce(e: Entry, at: Instant) {
    && !LexLess(UtcIso(at), UtcIso(e.start))
    && (e.end.None? || LexLess(UtcIso(at), UtcIso(e.end.value)))
  }

  /** Among the entries in force, the one that starts last. */
  function Effective(entries: seq<Entry>, at: Instant): Option<Entry> {
    if entries == [] then None
    else
      var e := entries[|entries| - 1];
      var earlier := Effective(entries[..|entries| - 1], at);
      if !InForce(e, at) then earlier
      else if earlier.Some? && !LexLess(UtcIso(earlier.value.start), UtcIso(e.start)) then earlier
      else Some(e)
  }

  lemma InForceIsCovers(e: Entry, at: Instant)
    ensures InForce(e, at) <==> Covers(e, at)
  {
    TextOrderIsTimeOrder(at, e.start);
    if e.end.Some? {
      TextOrderIsTimeOrder(at, e.end.value);
    }
  }

  lemma OverlapsByEnds(a: Entry, b: Entry)
    requires a.Valid() && b.Valid()
    ensures Overlaps(a, b)
            <==> (b.end.Some? ==> Before(a.start, b.end.value)) && (a.end.Some? ==> Before(b.start, a.end.value))
  {
    var at := if Before(a.start, b.start) then b.start else a.start;
    if (b.end.Some? ==> Before(a.start, b.end.value)) && (a.end.Some? ==> Before(b.start, a.end.value)) {
      assert Covers(a, at) && Covers(b, at);
    }
  }

  /** The insert check finds an overlap, except of an open-ended newcomer with an entry that starts in
      the last second of year 9999. It never refuses where there is none. */
  lemma BlocksExactly(stored: Entry, e: Entry)
    requires stored.Valid() && e.Valid()
    ensures Blocks(stored, e) <==> Overlaps(stored, e) && (e.end.Some? || Before(stored.start, LAST))
    ensures LAST.year == 9999 && forall at: Instant :: Before(LAST, at) ==> at.(micro := 0) == LAST
  {
    OverlapsByEnds(stored, e);
    TextOrderIsTimeOrder(stored.start, if e.end.Some? then e.end.value else LAST);
    if stored.end.Some? {
      TextOrderIsTimeOrder(e.start, stored.end.value);
    }
  }

  ghost predicate Disjoint(entries: seq<Entry>) {
    forall i, j :: 0 <= i < j < |entries| ==> !Overlaps(entries[i], entries[j])
  }

  predicate AllValid(entries: seq<Entry>) {
    forall e <- entries :: e.Valid()
  }

  /** Stored intervals stay pairwise disjoint if and only if the newcomer is bounded, or nothing it
      overlaps starts at the sentinel or later. */
  lemma InsertKeepsDisjoint(entries: seq<Entry>, e: Entry)
    requires Disjoint(entries) && AllValid(entries) && e.Valid()
    requires Insert(entries, e).Some?
    ensures Disjoint(entries + [e])
            <==> e.end.Some? || forall s <- entries ::
                                  Before(s.start, LAST) || (s.end.Some? && !Before(e.start, s.end.value))
  {
    forall i | 0 <= i < |entries|
      ensures !Overlaps(entries[i], e)
              <==> e.end.Some? || Before(entries[i].start, LAST)
                   || (entries[i].end.Some? && !Before(e.start, entries[i].end.value))
    {
      BlocksExactly(entries[i], e);
      OverlapsByEnds(entries[i], e);
    }
    var all := entries + [e];
    if Disjoint(all) {
      forall s | s in entries
        ensures e.end.Some? || Before(s.start, LAST) || (s.end.Some? && !Before(e.start, s.end.value))
      {
        var i :| 0 <= i < |entries| && entries[i] == s;
        assert all[i] == s && all[|entries|] == e;
      }
    } else {
      var i, j :| 0 <= i < j < |all| && Overlaps(all[i], all[j]);
      assert all[..|entries|] == entries;
      assert all[i] == entries[i] && entries[i] in entries;
    }
  }

  /** Whatever is stored, the lookup finds an entry if one covers the instant, and no entry that covers it
      starts later than the one found. */
  lemma {:induction false} EffectiveStartsLast(entries: seq<Entry>, at: Instant)
    ensures Effective(entries, at).None? <==> forall e <- entries :: !Covers(e, at)
    ensures Effective(entries, at).Some? ==>
              var found := Effective(entries, at).value;
              && found in entries && Covers(found, at)
              && forall e <- entries :: Covers(e, at) ==> !Before(found.start, e.start)
  {
    if entries != [] {
      var rest, e := entries[..|entries| - 1], entries[|entries| - 1];
      assert entries == rest + [e];
      EffectiveStartsLast(rest, at);
      InForceIsCovers(e, at);
      if Effective(rest, at).Some? {
        TextOrderIsTimeOrder(Effective(rest, at).value.start, e.start);
      }
    }
  }

  predicate Unambiguous(entries: seq<Entry>, at: Instant) {
    forall i, j :: 0 <= i < j < |entries| ==> !(Covers(entries[i], at) && Covers(entries[j], at))
  }

  /** The lookup finds the one interval that holds the instant, or that there is none. */
  lemma EffectiveIsTheCover(entries: seq<Entry>, at: Instant)
    requires Unambiguous(entries, at)
    ensures Effective(entries, at).Some? ==>
              Effective(entries, at).value in entries && Covers(Effective(entries, at).value, at)
    ensures forall i :: 0 <= i < |entries| && Covers(entries[i], at) ==> Effective(entries, at) == Some(entries[i])
  {
    EffectiveStartsLast(entries, at);
    forall i | 0 <= i < |entries| && Covers(entries[i], at) ensures Effective(entries, at) == Some(entries[i]) {
      assert entries[i] in entries;
      var k :| 0 <= k < |entries| && entries[k] == Effective(entries, at).value;
      assert !(i < k) && !(k < i);
    }
  }

  /** While stored intervals are disjoint the lookup is exact at every instant. */
  lemma EffectiveIsUnique(entries: seq<Entry>, at: Instant, e: Entry)
    requires Disjoint(entries)
    ensures Effective(entries, at) == Some(e) <==> e in entries && Covers(e, at)
  {
    assert Unambiguous(entries, at) by {
      forall i, j | 0 <= i < j < |entries| ensures !(Covers(entries[i], at) && Covers(entries[j], at)) {
        assert !Overlaps(entries[i], entries[j]);
      }
    }
    EffectiveIsTheCover(entries, at);
  }

  /** Entry i, and no other, is in force throughout the month. */
  ghost predicate Governs(entries: seq<Entry>, i: nat, m: Month) {
    && i < |entries| && entries[i].Valid() && Before(entries[i].start, LAST)
    && forall at: Instant, j :: MonthOf(at) == m && 0 <= j < |entries| ==> (Covers(entries[j], at) <==> j == i)
  }

  /** An entry that governs a month decides every lookup in it, and no insert can change that. */
  lemma GovernsForGood(entries: seq<Entry>, i: nat, m: Month, e: Entry)
    requires Governs(entries, i, m) && e.Valid() && Insert(entries, e).Some?
    ensures Governs(entries + [e], i, m)
  {
    BlocksExactly(entries[i], e);
    forall at: Instant | MonthOf(at) == m ensures !Covers(e, at) {
      assert Covers(entries[i], at);
    }
  }

  lemma GovernorIsEffective(entries: seq<Entry>, i: nat, m: Month, at: Instant)
    requires Governs(entries, i, m) && MonthOf(at) == m
    ensures Effective(entries, at) == Some(entries[i])
  {
    EffectiveIsTheCover(entries, at);
  }
}
