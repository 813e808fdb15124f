/**
 Governed knowledge: evidence is only ever added, and one resolution per key says what currently holds.
 Descriptions, business concepts, metrics and rules share the decision and the write.
 */
module Knowledge {
  import opened Wrappers

  datatype Status = Unknown | Inferred | Imported | Confirmed | Conflicting

  datatype Action = Accept | KeepCurrent | MarkConflict

  type Id = string

  /** An object reference, or the key of a concept, metric or rule. */
  type Key = string

  datatype Evidence<P> = Evidence(id: Id, payload: P, status: Status, confidence: real)

  datatype Resolution<P> = Resolution(
    payload: P, status: Status, confidence: real, selected: Option<Id>, updated: int)

  datatype Store<P> = Store(evidence: map<Id, (Key, Evidence<P>)>, resolutions: map<Key, Resolution<P>>)

  /** Supersede is a human correction and names the version its author read, None for no version. */
  datatype Mode = Ordinary | Supersede(expected: Option<int>)

  datatype Proposal<P> = Proposal(key: Key, evidence: Evidence<P>, mode: Mode, now: int)

  datatype Error = BadEvidence | Stale | NotConfirmed | Duplicate

  /******* Deciding *******/

  function Rank(s: Status): nat
    requires s != Conflicting
  {
    match s
    case Unknown => 0
    case Inferred => 1
    case Imported => 2
    case Confirmed => 3
  }

  /** same tells whether the candidate says what the current resolution says. */
  function Decide(current: Option<Status>, candidate: Status, same: bool): Action
    requires candidate != Conflicting
  {
    if current.None? || current.value == Unknown then Accept
    else if current.value == Conflicting then
      if candidate == Confirmed then Accept else KeepCurrent
    else if same then
      if Rank(candidate) >= Rank(current.value) then Accept else KeepCurrent
    else if Rank(candidate) < Rank(current.value) then KeepCurrent
    else if Rank(candidate) == Rank(current.value) then MarkConflict
    else Accept
  }

  /******* Writing *******/

  predicate Sound<P>(e: Evidence<P>) {
    e.status != Conflicting && 0.0 <= e.confidence <= 1.0
  }

  function NextVersion<P>(current: Option<Resolution<P>>, now: int): int {
    if current.None? || now > current.value.updated then now else current.value.updated + 1
  }

  function Least(x: real, y: real): real {
    if y < x then y else x
  }

  predicate Stands<P>(s: Store<P>, key: Key) {
    key in s.resolutions && s.resolutions[key].status == Confirmed
  }

  function Current<P>(s: Store<P>, key: Key): Option<Resolution<P>> {
    if key in s.resolutions then Some(s.resolutions[key]) else None
  }

  predicate Matches<P>(current: Option<Resolution<P>>, expected: Option<int>) {
    expected == if current.None? then None else Some(current.value.updated)
  }

  function ActionFor<P>(current: Option<Resolution<P>>, e: Evidence<P>, mode: Mode, same: (P, P) -> bool): Action
    requires e.status != Conflicting
  {
    if mode.Supersede? then Accept
    else if current.None? then Decide(None, e.status, false)
    else Decide(Some(current.value.status), e.status, same(current.value.payload, e.payload))
  }

  /** What the decision writes; keeping the current resolution writes nothing. */
  function Resolved<P>(read: Option<Resolution<P>>, e: Evidence<P>, action: Action, now: int): Option<Resolution<P>> {
    match action
    case Accept => Some(Resolution(e.payload, e.status, e.confidence, Some(e.id), NextVersion(read, now)))
    case KeepCurrent => None
    case MarkConflict =>
      if read.None? then None
      else
        var r := read.value;
        Some(Resolution(r.payload, Conflicting, Least(r.confidence, e.confidence), None, NextVersion(read, now)))
  }

  /** A proposal together with the resolution that was read for it. */
  datatype Pending<P> = Pending(proposal: Proposal<P>, read: Option<Resolution<P>>)

  /** What is refused before anything is written. */
  function Refused<P>(q: Pending<P>): Option<Error> {
    var p := q.proposal;
    if !Sound(p.evidence) then Some(BadEvidence)
    else if p.mode.Supersede? && !Matches(q.read, p.mode.expected) then Some(Stale)
    else if p.mode.Supersede? && p.evidence.status != Confirmed then Some(NotConfirmed)
    else None
  }

  function Outcome<P>(q: Pending<P>, same: (P, P) -> bool): Option<Resolution<P>>
    requires Refused(q).None?
  {
    var p := q.proposal;
    Resolved(q.read, p.evidence, ActionFor(q.read, p.evidence, p.mode, same), p.now)
  }

  /** Write what was decided from the row read. Evidence is recorded whatever was decided, and the upsert
      asks nothing of the row it replaces. */
  function Commit<P>(s: Store<P>, q: Pending<P>, same: (P, P) -> bool): Result<Store<P>, Error> {
    var e := q.proposal.evidence;
    if Refused(q).Some? then Err(Refused(q).value)
    else if e.id in s.evidence then Err(Duplicate)
    else
      var next := Outcome(q, same);
      Ok(Store(s.evidence[e.id := (q.proposal.key, e)],
               if next.None? then s.resolutions else s.resolutions[q.proposal.key := next.value]))
  }

  /** Read and write as one step, as in one process. */
  function Propose<P>(s: Store<P>, p: Proposal<P>, same: (P, P) -> bool): Result<Store<P>, Error> {
    Commit(s, Pending(p, Current(s, p.key)), same)
  }

  function Settle<P>(s: Store<P>, r: Result<Store<P>, Error>): Store<P> {
    if r.Ok? then r.value else s
  }

  /******* Runs of one process *******/

  function Step<P>(s: Store<P>, p: Proposal<P>, same: (P, P) -> bool): Store<P> {
    Settle(s, Propose(s, p, same))
  }

  function Run<P>(s: Store<P>, ps: seq<Proposal<P>>, same: (P, P) -> bool): Store<P> {
    if ps == [] then s else Step(Run(s, ps[..|ps| - 1], same), ps[|ps| - 1], same)
  }

  function Empty<P>(): Store<P> {
    Store(map[], map[])
  }

  /******* Several processes *******/

  type Client = string

  /** Replicas share the tables; each holds the row it read until it writes. */
  datatype World<P> = World(store: Store<P>, pending: map<Client, Pending<P>>)

  datatype Event<P> = Read(client: Client, proposal: Proposal<P>) | Write(client: Client)

  function Advance<P>(w: World<P>, e: Event<P>, same: (P, P) -> bool): World<P> {
    match e
    case Read(client, p) =>
      var q := Pending(p, Current(w.store, p.key));
      if Refused(q).Some? then w else w.(pending := w.pending[client := q])
    case Write(client) =>
      if client !in w.pending then w
      else World(Settle(w.store, Commit(w.store, w.pending[client], same)), w.pending - {client})
  }

  function Interleave<P>(w: World<P>, events: seq<Event<P>>, same: (P, P) -> bool): World<P> {
    if events == [] then w else Advance(Interleave(w, events[..|events| - 1], same), events[|events| - 1], same)
  }

  function Start<P>(s: Store<P>): World<P> {
    World(s, map[])
  }

  lemma ReadThenWriteIsPropose<P>(w: World<P>, client: Client, p: Proposal<P>, same: (P, P) -> bool)
    requires client !in w.pending
    ensures Advance(Advance(w, Read(client, p), same), Write(client), same).store == Step(w.store, p, same)
  {
  }

  /** The row a write replaces is the row its client read. */
  predicate InTime<P(==)>(w: World<P>, e: Event<P>) {
    e.Write? && e.client in w.pending ==>
      w.pending[e.client].read == Current(w.store, w.pending[e.client].proposal.key)
  }

  predicate AllInTime<P(==)>(w: World<P>, events: seq<Event<P>>, same: (P, P) -> bool) {
    events != [] ==>
      var n := |events| - 1;
      AllInTime(w, events[..n], same) && InTime(Interleave(w, events[..n], same), events[n])
  }

  /** The proposals a run writes, in the order of the writes. */
  function Written<P>(w: World<P>, events: seq<Event<P>>, same: (P, P) -> bool): seq<Proposal<P>> {
    if events == [] then []
    else
      var n := |events| - 1;
      var u := Interleave(w, events[..n], same);
      Written(w, events[..n], same)
      + if events[n].Write? && events[n].client in u.pending then [u.pending[events[n].client].proposal] else []
  }

  /** While every write is in time, several processes do what one process does. */
  lemma {:induction false} InTimeIsOneProcess<P>(w: World<P>, events: seq<Event<P>>, same: (P, P) -> bool)
    requires AllInTime(w, events, same)
    ensures Interleave(w, events, same).store == Run(w.store, Written(w, events, same), same)
  {
    if events != [] {
      var n := |events| - 1;
      InTimeIsOneProcess(w, events[..n], same);
      var u, ps := Interleave(w, events[..n], same), Written(w, events[..n], same);
      if events[n].Write? && events[n].client in u.pending {
        var p := u.pending[events[n].client].proposal;
        assert (ps + [p])[..|ps|] == ps;
      } else {
        assert ps + [] == ps;
      }
    }
  }

  /******* Provenance *******/

  /** A resolution that is not conflicting is the stored evidence it selects; a conflicting one selects
      none. */
  ghost predicate Backed<P>(s: Store<P>, key: Key, r: Resolution<P>) {
    if r.status == Conflicting then r.selected.None?
    else
      r.selected.Some? && r.selected.value in s.evidence
      && s.evidence[r.selected.value] == (key, Evidence(r.selected.value, r.payload, r.status, r.confidence))
  }

  ghost predicate Kept<P>(s: Store<P>) {
    (forall k <- s.resolutions :: Backed(s, k, s.resolutions[k]))
    && forall id <- s.evidence :: s.evidence[id].1.id == id && Sound(s.evidence[id].1)
  }

  ghost predicate Extends<P>(s: Store<P>, t: Store<P>) {
    && (forall id <- s.evidence :: id in t.evidence && t.evidence[id] == s.evidence[id])
    && (forall k <- s.resolutions :: k in t.resolutions)
  }

  lemma CommitKeeps<P>(s: Store<P>, q: Pending<P>, same: (P, P) -> bool)
    requires Kept(s)
    ensures Kept(Settle(s, Commit(s, q, same))) && Extends(s, Settle(s, Commit(s, q, same)))
  {
    var t := Settle(s, Commit(s, q, same));
    forall k | k in t.resolutions ensures Backed(t, k, t.resolutions[k]) {
      if k in s.resolutions {
        assert Backed(s, k, s.resolutions[k]);
      }
    }
  }

  /** Evidence provenance survives every interleaving, and neither evidence nor a resolution is lost. */
  lemma {:induction false} RunKeeps<P>(w: World<P>, events: seq<Event<P>>, same: (P, P) -> bool)
    requires Kept(w.store)
    ensures Kept(Interleave(w, events, same).store)
    ensures Extends(w.store, Interleave(w, events, same).store)
  {
    if events != [] {
      var n := |events| - 1;
      RunKeeps(w, events[..n], same);
      var u := Interleave(w, events[..n], same);
      if events[n].Write? && events[n].client in u.pending {
        CommitKeeps(u.store, u.pending[events[n].client], same);
      }
    }
  }

  /******* Versions *******/

  /** Does the write change the stored resolutions? */
  predicate Writes<P>(s: Store<P>, q: Pending<P>, same: (P, P) -> bool) {
    Refused(q).None? && q.proposal.evidence.id !in s.evidence && Outcome(q, same).Some?
  }

  /** The clock is past the stored version, or the row read is at least as new. */
  predicate Newer<P>(s: Store<P>, q: Pending<P>) {
    q.proposal.key in s.resolutions ==>
      var version := s.resolutions[q.proposal.key].updated;
      q.proposal.now > version || (q.read.Some? && q.read.value.updated >= version)
  }

  /** A write raises the version it replaces exactly then. */
  lemma VersionGrowsExactly<P>(s: Store<P>, q: Pending<P>, same: (P, P) -> bool)
    requires Writes(s, q, same) && q.proposal.key in s.resolutions
    ensures s.resolutions[q.proposal.key].updated < Commit(s, q, same).value.resolutions[q.proposal.key].updated
            <==> Newer(s, q)
  {
  }

  predicate WriteNewer<P>(w: World<P>, e: Event<P>, same: (P, P) -> bool) {
    e.Write? && e.client in w.pending && Writes(w.store, w.pending[e.client], same) ==>
        Newer(w.store, w.pending[e.client])
  }

  predicate AllNewer<P>(w: World<P>, events: seq<Event<P>>, same: (P, P) -> bool) {
    events != [] ==>
      var n := |events| - 1;
      AllNewer(w, events[..n], same) && WriteNewer(Interleave(w, events[..n], same), events[n], same)
  }

  /** As long as every write is newer than what it replaces, every change of a resolution raises its
      version, in any interleaving. */
  lemma {:induction false} VersionsGrow<P>(w: World<P>, events: seq<Event<P>>, same: (P, P) -> bool, key: Key)
    requires key in w.store.resolutions && AllNewer(w, events, same)
    ensures var t := Interleave(w, events, same).store;
            key in t.resolutions
            && (t.resolutions[key] == w.store.resolutions[key]
                || w.store.resolutions[key].updated < t.resolutions[key].updated)
  {
    if events != [] {
      var n := |events| - 1;
      VersionsGrow(w, events[..n], same, key);
      var u := Interleave(w, events[..n], same);
      if events[n].Write? && events[n].client in u.pending {
        var q := u.pending[events[n].client];
        if Writes(u.store, q, same) && q.proposal.key == key {
          VersionGrowsExactly(u.store, q, same);
        }
      }
    }
  }

  /** A write in time is newer than what it replaces, so in such runs versions grow by themselves. */
  lemma {:induction false} InTimeIsNewer<P>(w: World<P>, events: seq<Event<P>>, same: (P, P) -> bool)
    requires AllInTime(w, events, same)
    ensures AllNewer(w, events, same)
  {
    if events != [] {
      InTimeIsNewer(w, events[..|events| - 1], same);
    }
  }

  /** In one process every change of a resolution raises its version, in every run. */
  lemma {:induction false} VersionsGrowInOneProcess<P>(
      s: Store<P>, ps: seq<Proposal<P>>, same: (P, P) -> bool, key: Key)
    requires key in s.resolutions
    ensures var t := Run(s, ps, same);
            key in t.resolutions
            && (t.resolutions[key] == s.resolutions[key] || s.resolutions[key].updated < t.resolutions[key].updated)
  {
    if ps != [] {
      var n := |ps| - 1;
      VersionsGrowInOneProcess(s, ps[..n], same, key);
      var t := Run(s, ps[..n], same);
      var q := Pending(ps[n], Current(t, ps[n].key));
      if Writes(t, q, same) && ps[n].key == key {
        VersionGrowsExactly(t, q, same);
      }
    }
  }

  /** In one process an accepted correction overwrote exactly what its author had read, whatever ran in
      between. */
  lemma CorrectionInOneProcess<P>(s: Store<P>, ps: seq<Proposal<P>>, same: (P, P) -> bool, p: Proposal<P>)
    requires p.mode.Supersede? && Matches(Current(s, p.key), p.mode.expected)
    requires Propose(Run(s, ps, same), p, same).Ok?
    ensures Current(Run(s, ps, same), p.key) == Current(s, p.key)
    ensures var r := Propose(Run(s, ps, same), p, same).value.resolutions[p.key];
            && r.payload == p.evidence.payload && r.status == Confirmed && r.selected == Some(p.evidence.id)
            && (p.key in s.resolutions ==> s.resolutions[p.key].updated < r.updated)
  {
    if p.key in s.resolutions {
      VersionsGrowInOneProcess(s, ps, same, p.key);
    }
  }

  /** What a correction replaces is what its author read exactly when the version the author named is
      still the stored one at the write, whatever ran in between. In one process the call checks this. */
  lemma CorrectionOverwritesWhatWasRead<P>(
      w: World<P>, events: seq<Event<P>>, same: (P, P) -> bool, p: Proposal<P>)
    requires p.mode.Supersede? && Matches(Current(w.store, p.key), p.mode.expected)
    requires AllNewer(w, events, same)
    ensures var s := Interleave(w, events, same).store;
            && (Current(s, p.key) == Current(w.store, p.key) <==> Matches(Current(s, p.key), p.mode.expected))
            && (Propose(s, p, same).Ok? ==> Current(s, p.key) == Current(w.store, p.key))
  {
    if p.key in w.store.resolutions {
      VersionsGrow(w, events, same, p.key);
    }
  }

  /** A correction is accepted exactly when it is sound, confirmed, new and its version is current; it is
      what the key resolves to then. */
  lemma CorrectionRule<P>(s: Store<P>, p: Proposal<P>, same: (P, P) -> bool)
    requires p.mode.Supersede?
    ensures Propose(s, p, same).Ok?
            <==> && Sound(p.evidence) && p.evidence.status == Confirmed && p.evidence.id !in s.evidence
                 && (p.mode.expected.None? <==> p.key !in s.resolutions)
                 && (p.mode.expected.Some? && p.key in s.resolutions ==>
                       s.resolutions[p.key].updated == p.mode.expected.value)
    ensures Propose(s, p, same).Ok? ==>
              var e := p.evidence;
              Propose(s, p, same).value
              == Store(s.evidence[e.id := (p.key, e)],
                       s.resolutions[p.key := Resolution(e.payload, Confirmed, e.confidence, Some(e.id),
                                                         NextVersion(Current(s, p.key), p.now))])
  {
  }

  lemma Then<P>(w: World<P>, events: seq<Event<P>>, e: Event<P>, same: (P, P) -> bool)
    returns (longer: seq<Event<P>>)
    ensures longer == events + [e] && Interleave(w, longer, same) == Advance(Interleave(w, events, same), e, same)
  {
    longer := events + [e];
    assert longer[..|longer| - 1] == events;
  }

  /** Two replicas' corrections of one version are both accepted: the later write replaces a resolution
      its author never saw, and need not even raise the version. */
  lemma BothCorrectionsAccepted<P>(
      s: Store<P>, same: (P, P) -> bool, a: Proposal<P>, b: Proposal<P>, first: Client, second: Client)
    returns (events: seq<Event<P>>)
    requires first != second && a.key == b.key && a.mode.Supersede? && b.mode == a.mode
    requires Propose(s, a, same).Ok? && Propose(s, b, same).Ok? && a.evidence.id != b.evidence.id
    ensures var t, u := Interleave(Start(s), events, same), Interleave(Start(s), events + [Write(second)], same);
            && second in t.pending && t.pending[second].proposal == b && Commit(t.store, t.pending[second], same).Ok?
            && Current(t.store, b.key) != t.pending[second].read == Current(s, b.key)
            && b.key in t.store.resolutions && b.key in u.store.resolutions
            && t.store.resolutions[b.key].selected == Some(a.evidence.id)
            && u.store.resolutions[b.key].selected == Some(b.evidence.id)
            && (a.now == b.now ==> u.store.resolutions[b.key].updated == t.store.resolutions[b.key].updated)
  {
    events := Then(Start(s), [], Read(first, a), same);
    events := Then(Start(s), events, Read(second, b), same);
    events := Then(Start(s), events, Write(first), same);
    var longer := Then(Start(s), events, Write(second), same);
  }

  /******* Authority *******/

  /** As the services call the repository: automation never claims to be confirmed. */
  predicate FromService<P>(p: Proposal<P>) {
    if p.mode.Supersede? then p.evidence.status == Confirmed
    else p.evidence.status == Unknown || p.evidence.status == Inferred || p.evidence.status == Imported
  }

  predicate Services<P(==)>(events: seq<Event<P>>) {
    forall e <- events :: e.Read? ==> FromService(e.proposal)
  }

  function Height(s: Status): nat {
    match s
    case Unknown => 0
    case Inferred => 1
    case Imported => 2
    case Conflicting => 3
    case Confirmed => 4
  }

  predicate AtLeast<P>(s: Store<P>, key: Key, h: nat) {
    key in s.resolutions && h <= Height(s.resolutions[key].status)
  }

  /** A write still to come that puts less authority on the key than h. */
  predicate Lowers<P>(s: Store<P>, q: Pending<P>, same: (P, P) -> bool, key: Key, h: nat) {
    q.proposal.key == key && Writes(s, q, same) && Height(Outcome(q, same).value.status) < h
  }

  /** What unseats a confirmed key: evidence of automation whose read found nothing, or found a row that
      was neither confirmed nor in conflict and not of higher authority. */
  lemma WhatUnseats<P>(s: Store<P>, q: Pending<P>, same: (P, P) -> bool, key: Key)
    requires FromService(q.proposal)
    ensures Lowers(s, q, same, key, Height(Confirmed))
            <==> && q.proposal.key == key && q.proposal.mode.Ordinary?
                 && Sound(q.proposal.evidence) && q.proposal.evidence.id !in s.evidence
                 && (q.read.Some? ==> Height(q.read.value.status) < 3
                                      && Rank(q.proposal.evidence.status) >= Rank(q.read.value.status))
  {
  }

  predicate NoneLowers<P>(w: World<P>, same: (P, P) -> bool, key: Key, h: nat) {
    forall c <- w.pending :: !Lowers(w.store, w.pending[c], same, key, h)
  }

  predicate PendingFromService<P>(w: World<P>) {
    forall c <- w.pending :: FromService(w.pending[c].proposal)
  }

  lemma ReadNeverLowers<P>(s: Store<P>, p: Proposal<P>, same: (P, P) -> bool, key: Key, h: nat)
    requires AtLeast(s, key, h) && FromService(p)
    ensures !Lowers(s, Pending(p, Current(s, p.key)), same, key, h)
  {
  }

  lemma AdvanceKeepsAuthority<P>(w: World<P>, e: Event<P>, same: (P, P) -> bool, key: Key, h: nat)
    requires AtLeast(w.store, key, h) && PendingFromService(w) && NoneLowers(w, same, key, h)
    requires e.Read? ==> FromService(e.proposal)
    ensures var u := Advance(w, e, same);
            AtLeast(u.store, key, h) && PendingFromService(u) && NoneLowers(u, same, key, h)
  {
    if e.Read? {
      ReadNeverLowers(w.store, e.proposal, same, key, h);
    } else if e.client in w.pending {
      assert !Lowers(w.store, w.pending[e.client], same, key, h);
    }
  }

  lemma {:induction false} AuthorityHolds<P>(
      w: World<P>, events: seq<Event<P>>, same: (P, P) -> bool, key: Key, h: nat)
    requires AtLeast(w.store, key, h) && PendingFromService(w) && NoneLowers(w, same, key, h) && Services(events)
    ensures var u := Interleave(w, events, same);
            AtLeast(u.store, key, h) && PendingFromService(u) && NoneLowers(u, same, key, h)
  {
    if events != [] {
      var n := |events| - 1;
      AuthorityHolds(w, events[..n], same, key, h);
      assert events[n] in events;
      AdvanceKeepsAuthority(Interleave(w, events[..n], same), events[n], same, key, h);
    }
  }

  ghost predicate NeverBelow<P(!new)>(w: World<P>, same: (P, P) -> bool, key: Key, h: nat) {
    forall events :: Services(events) ==> AtLeast(Interleave(w, events, same).store, key, h)
  }

  /** A key keeps its authority in every interleaving of the services' calls exactly when no write from
      an earlier read is still to come that would lower it. With nothing pending, as in one process,
      authority never falls; what is confirmed stays so. */
  lemma AuthorityNeverFalls<P(!new)>(w: World<P>, same: (P, P) -> bool, key: Key)
    requires key in w.store.resolutions && PendingFromService(w)
    ensures var h := Height(w.store.resolutions[key].status);
            NeverBelow(w, same, key, h) <==> NoneLowers(w, same, key, h)
  {
    var h := Height(w.store.resolutions[key].status);
    if NoneLowers(w, same, key, h) {
      forall events | Services(events) ensures AtLeast(Interleave(w, events, same).store, key, h) {
        AuthorityHolds(w, events, same, key, h);
      }
    } else {
      var c :| c in w.pending && Lowers(w.store, w.pending[c], same, key, h);
      var events := Then(w, [], Write(c), same);
      assert Services(events) && !AtLeast(Interleave(w, events, same).store, key, h);
    }
  }

  /** A confirmation is lost: automation read before it and writes after it. */
  lemma ConfirmationCanBeLost<P>(
      same: (P, P) -> bool, a: Proposal<P>, b: Proposal<P>, slow: Client, quick: Client)
    returns (events: seq<Event<P>>)
    requires slow != quick && a.key == b.key && FromService(a) && a.mode.Ordinary? && Sound(a.evidence)
    requires b.mode == Supersede(None) && FromService(b) && Sound(b.evidence) && a.evidence.id != b.evidence.id
    ensures Services(events)
    ensures var t := Interleave(Start(Empty()), events, same);
            var u := Interleave(Start(Empty()), events + [Write(slow)], same);
            && Stands(t.store, a.key) && slow in t.pending
            && Lowers(t.store, t.pending[slow], same, a.key, Height(Confirmed))
            && a.key in u.store.resolutions && !Stands(u.store, a.key)
            && u.store.resolutions[a.key].status == a.evidence.status
  {
    var w := Start<P>(Empty());
    events := Then(w, [], Read(slow, a), same);
    events := Then(w, events, Read(quick, b), same);
    assert Interleave(w, events, same) == World(Empty(), map[slow := Pending(a, None), quick := Pending(b, None)]);
    events := Then(w, events, Write(quick), same);
    var t := Interleave(w, events, same);
    assert t.pending == map[slow := Pending(a, None)] && t.store.evidence.Keys == {b.evidence.id};
    var longer := Then(w, events, Write(slow), same);
  }

  /** A write still to come that changes what is stored under the key. */
  ghost predicate Changes<P>(s: Store<P>, q: Pending<P>, same: (P, P) -> bool, key: Key) {
    q.proposal.key == key && Writes(s, q, same) && Outcome(q, same) != Current(s, key)
  }

  /** What changes a confirmed or conflicting resolution: a correction, or evidence of automation whose read
      found nothing, or a row not settled and not of higher authority; unless it repeats, field by field, the
      conflict that is stored. */
  lemma WhatChanges<P>(s: Store<P>, q: Pending<P>, same: (P, P) -> bool, key: Key)
    requires Kept(s) && key in s.resolutions && Height(s.resolutions[key].status) >= 3 && FromService(q.proposal)
    ensures var p, r := q.proposal, s.resolutions[key];
            Changes(s, q, same, key)
            <==> && p.key == key && Sound(p.evidence) && p.evidence.id !in s.evidence
                 && match p.mode
                    case Supersede(expected) => Matches(q.read, expected)
                    case Ordinary =>
                      q.read.Some? ==>
                        var read := q.read.value;
                        && Height(read.status) < 3 && Rank(p.evidence.status) >= Rank(read.status)
                        && !(&& read.status == p.evidence.status != Unknown && !same(read.payload, p.evidence.payload)
                             && r.status == Conflicting && r.payload == read.payload && r.selected.None?
                             && r.confidence == Least(read.confidence, p.evidence.confidence)
                             && r.updated == NextVersion(q.read, p.now))
  {
    assert Backed(s, key, s.resolutions[key]);
  }

  ghost predicate NoneChanges<P>(w: World<P>, same: (P, P) -> bool, key: Key) {
    forall c <- w.pending :: !Changes(w.store, w.pending[c], same, key)
  }

  predicate Automation<P(==)>(events: seq<Event<P>>, key: Key) {
    forall e <- events :: e.Read? && e.proposal.key == key ==> FromService(e.proposal) && e.proposal.mode.Ordinary?
  }

  lemma {:induction false} SettledHolds<P>(
      w: World<P>, events: seq<Event<P>>, same: (P, P) -> bool, key: Key)
    requires key in w.store.resolutions && Height(w.store.resolutions[key].status) >= 3
    requires NoneChanges(w, same, key) && Automation(events, key)
    ensures var u := Interleave(w, events, same);
            Current(u.store, key) == Some(w.store.resolutions[key]) && NoneChanges(u, same, key)
  {
    if events != [] {
      var n := |events| - 1;
      SettledHolds(w, events[..n], same, key);
      assert events[n] in events;
    }
  }

  ghost predicate NeverChanged<P(!new)>(w: World<P>, same: (P, P) -> bool, key: Key) {
    forall events :: Automation(events, key) ==>
                       Current(Interleave(w, events, same).store, key) == Current(w.store, key)
  }

  /** Automation leaves confirmed and conflicting knowledge exactly as it is, in every interleaving, if
      and only if no write of the key from an earlier read is still to come. */
  lemma OnlyCorrectionsChangeSettledKnowledge<P(!new)>(w: World<P>, same: (P, P) -> bool, key: Key)
    requires key in w.store.resolutions && Height(w.store.resolutions[key].status) >= 3
    ensures NeverChanged(w, same, key) <==> NoneChanges(w, same, key)
  {
    if NoneChanges(w, same, key) {
      forall events | Automation(events, key)
        ensures Current(Interleave(w, events, same).store, key) == Current(w.store, key)
      {
        SettledHolds(w, events, same, key);
      }
    } else {
      var c :| c in w.pending && Changes(w.store, w.pending[c], same, key);
      var events := Then(w, [], Write(c), same);
      assert Automation(events, key);
    }
  }

  /** A resolution turns conflicting exactly when ordinary evidence of its own authority contradicts it; it
      keeps its payload, with the smaller of the two confidences. */
  lemma ConflictRule<P>(s: Store<P>, p: Proposal<P>, same: (P, P) -> bool)
    requires p.key in s.resolutions && Propose(s, p, same).Ok? && s.resolutions[p.key].status != Conflicting
    ensures var was, now := s.resolutions[p.key], Propose(s, p, same).value.resolutions[p.key];
            && (now.status == Conflicting <==>
                && p.mode.Ordinary? && was.status == p.evidence.status != Unknown
                && !same(was.payload, p.evidence.payload))
            && (now.status == Conflicting ==>
                  && now.payload == was.payload && now.selected.None?
                  && now.confidence <= was.confidence && now.confidence <= p.evidence.confidence
                  && (now.confidence == was.confidence || now.confidence == p.evidence.confidence))
  {
  }

  /** The version a write stores is the first that the clock has reached and the row read has not. */
  lemma NextVersionIsLeast<P>(current: Option<Resolution<P>>, now: int, v: int)
    ensures NextVersion(current, now) <= v <==> now <= v && (current.Some? ==> current.value.updated < v)
  {
  }

  /** Evidence of this status takes the place of what is known: of nothing, of what is unknown, of less, of
      the same said with no more authority, and a confirmation of a conflict. */
  predicate Supersedes<P>(current: Option<Resolution<P>>, e: Evidence<P>, same: (P, P) -> bool) {
    current.Some? && current.value.status != Unknown ==>
      var was := current.value;
      if was.status == Conflicting then e.status == Confirmed
      else Height(was.status) < Height(e.status)
           || (was.status == e.status && same(was.payload, e.payload))
  }

  /** What one process makes of ordinary evidence: which is refused, and what a key resolves to then. */
  lemma EvidenceRule<P>(s: Store<P>, p: Proposal<P>, same: (P, P) -> bool)
    requires p.mode.Ordinary?
    ensures var e, was, r := p.evidence, Current(s, p.key), Propose(s, p, same);
            && (r.Ok? <==> e.status != Conflicting && 0.0 <= e.confidence <= 1.0 && e.id !in s.evidence)
            && (r.Ok? ==>
                  && r.value.evidence == s.evidence[e.id := (p.key, e)]
                  && (forall k :: k != p.key ==> Current(r.value, k) == Current(s, k))
                  && Current(r.value, p.key)
                     == if Supersedes(was, e, same) then
                          Some(Resolution(e.payload, e.status, e.confidence, Some(e.id), NextVersion(was, p.now)))
                        else if was.value.status == e.status then
                          Some(Resolution(was.value.payload, Conflicting, Least(was.value.confidence, e.confidence),
                                          None, NextVersion(was, p.now)))
                        else was)
  {
  }

  /******* The stored tables *******/

  class KnowledgeBase<P> {
    var evidence: map<Id, (Key, Evidence<P>)>
    var resolutions: map<Key, Resolution<P>>

    constructor ()
      ensures Model() == Empty()
    {
      evidence, resolutions := map[], map[];
    }

    function Model(): Store<P>
      reads this
    {
      Store(evidence, resolutions)
    }

    method ProposeDefinition(key: Key, definition: Evidence<P>, mode: Mode, now: int, same: (P, P) -> bool)
      returns (r: Result<(Resolution<P>, Action), Error>)
      modifies this
      ensures var p := Proposal(key, definition, mode, now);
              match old(Propose(Model(), p, same))
              case Err(e) => Model() == old(Model()) && r == Err(e)
              case Ok(after) =>
                && Model() == after && r.Ok? && key in resolutions && r.value.0 == resolutions[key]
                && r.value.1 == ActionFor(old(Current(Model(), key)), definition, mode, same)
    {
      if definition.status == Conflicting || !(0.0 <= definition.confidence <= 1.0) {
        return Err(BadEvidence);
      }
      var action := Accept;
      if mode.Supersede? {
        if key !in resolutions && mode.expected.Some? {
          return Err(Stale);
        }
        if key in resolutions && (mode.expected.None? || mode.expected.value != resolutions[key].updated) {
          return Err(Stale);
        }
        if definition.status != Confirmed {
          return Err(NotConfirmed);
        }
      } else if key in resolutions {
        var current := resolutions[key];
        action := Decide(Some(current.status), definition.status, same(current.payload, definition.payload));
      }
      if definition.id in evidence {
        return Err(Duplicate);
      }
      evidence := evidence[definition.id := (key, definition)];
      var version :=
        if key in resolutions && now <= resolutions[key].updated then resolutions[key].updated + 1 else now;
      if action == Accept {
        var next := Resolution(definition.payload, definition.status, definition.confidence, Some(definition.id),
            version);
        resolutions := resolutions[key := next];
      } else if action == MarkConflict {
        var next := resolutions[key].(status := Conflicting, selected := None, updated := version);
        next := next.(confidence := Least(next.confidence, definition.confidence));
        resolutions := resolutions[key := next];
      } else {
        assert resolutions == resolutions[key := resolutions[key]];
      }
      r := Ok((resolutions[key], action));
    }
  }
}
