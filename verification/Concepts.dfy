/**
 Business concepts: automation proposes, people correct. Confirmed concepts own their terms, so a query
 term leads to one concept.
 */
module Concepts {
  import opened Wrappers
  import opened Text
  import opened TermMatch
  import K = Knowledge

  type Key = K.Key
  type Term = seq<Token>

  /** Texts arrive stripped. */
  datatype Concept = Concept(
    name: string, description: string, synonyms: seq<string>, refs: seq<string>, classification: string)

  type Store = K.Store<Concept>

  /** How texts are compared: tokens is the search normalization, fold ignores case. */
  datatype Texts = Texts(tokens: string -> seq<Token>, fold: string -> string)

  datatype Error = BadConcept | UnknownObject | TermTaken | Refused(cause: K.Error)

  /******* Definitions *******/

  function Spoken(key: Key): string {
    seq(|key|, i requires 0 <= i < |key| => if key[i] == '_' then ' ' else key[i])
  }

  function RawTerms(key: Key, c: Concept): seq<string> {
    [c.name, Spoken(key)] + c.synonyms
  }

  function TermsOf(x: Texts, key: Key, c: Concept): set<Term> {
    set v <- RawTerms(key, c) | !Blank(v) :: x.tokens(v)
  }

  /** v reads the key with a space for each underscore. */
  predicate Reads(v: string, key: Key) {
    |v| == |key| && forall i :: 0 <= i < |v| ==> v[i] == if key[i] == '_' then ' ' else key[i]
  }

  /** A text that stands for the concept: its name, a synonym, or its key read with spaces. */
  predicate Says(key: Key, c: Concept, v: string) {
    !Blank(v) && (v == c.name || v in c.synonyms || Reads(v, key))
  }

  /** The terms of a concept are the tokens of those texts. */
  lemma TermsAreTexts(x: Texts, key: Key, c: Concept, t: Term)
    ensures t in TermsOf(x, key, c) <==> exists v :: Says(key, c, v) && x.tokens(v) == t
  {
    var texts := RawTerms(key, c);
    forall v ensures Reads(v, key) <==> v == Spoken(key) {
    }
    forall v ensures v in texts <==> v == c.name || v in c.synonyms || Reads(v, key) {
      assert texts[0] == c.name && texts[1] == Spoken(key) && texts[2..] == c.synonyms;
      assert v in texts <==> v == texts[0] || v == texts[1] || v in texts[2..];
    }
  }

  predicate Distinct<T(==)>(s: seq<T>) {
    forall i, j :: 0 <= i < j < |s| ==> s[i] != s[j]
  }

  predicate LowerIdentifier(s: string) {
    0 < |s| <= 63 && (Lower(s[0]) || s[0] == '_') && forall c <- s :: Lower(c) || Numeral(c) || c == '_'
  }

  predicate Acceptable(x: Texts, key: Key, c: Concept) {
    && LowerIdentifier(key)
    && !Blank(c.name) && |c.name| <= 300 && !Blank(c.description) && |c.description| <= 20_000
    && (forall v <- c.synonyms :: !Blank(v) && x.tokens(v) != x.tokens(c.name))
    && (forall i, j :: 0 <= i < j < |c.synonyms| ==> x.tokens(c.synonyms[i]) != x.tokens(c.synonyms[j]))
    && c.refs != [] && Distinct(c.refs) && forall r <- c.refs :: !Blank(r)
  }

  function Folded(x: Texts, s: seq<string>): multiset<string> {
    if s == [] then multiset{} else multiset{x.fold(s[0])} + Folded(x, s[1..])
  }

  /** Whether two definitions say the same, up to case and the order of their lists. */
  function Same(x: Texts): (Concept, Concept) -> bool {
    (a: Concept, b: Concept) =>
      x.fold(a.name) == x.fold(b.name) && x.fold(a.description) == x.fold(b.description)
      && Folded(x, a.synonyms) == Folded(x, b.synonyms) && multiset(a.refs) == multiset(b.refs)
      && a.classification == b.classification
  }

  /******* Operations *******/

  function OwnTerms(x: Texts, s: Store, key: Key): set<Term>
    requires key in s.resolutions
  {
    TermsOf(x, key, s.resolutions[key].payload)
  }

  /** No other confirmed concept has one of these terms. */
  predicate TermsFree(x: Texts, s: Store, key: Key, c: Concept) {
    forall k <- s.resolutions :: k != key && K.Stands(s, k) ==> TermsOf(x, key, c) !! OwnTerms(x, s, k)
  }

  function Checked(x: Texts, known: set<string>, key: Key, c: Concept): Option<Error> {
    if !Distinct(c.refs) then Some(BadConcept)
    else if exists r <- c.refs :: r !in known then Some(UnknownObject)
    else if !Acceptable(x, key, c) then Some(BadConcept)
    else None
  }

  function Write(x: Texts, s: Store, p: K.Proposal<Concept>): Result<Store, Error> {
    match K.Propose(s, p, Same(x))
    case Ok(t) => Ok(t)
    case Err(e) => Err(Refused(e))
  }

  predicate Proposable(status: K.Status) {
    status == K.Imported || status == K.Inferred || status == K.Unknown
  }

  /** known holds the references of the latest catalog version. */
  function Propose(x: Texts, s: Store, known: set<string>, key: Key, e: K.Evidence<Concept>, now: int)
    : Result<Store, Error>
  {
    if !Proposable(e.status) then Err(BadConcept)
    else
      var problem := Checked(x, known, key, e.payload);
      if problem.Some? then Err(problem.value) else Write(x, s, K.Proposal(key, e, K.Ordinary, now))
  }

  function Correction(key: Key, c: Concept, id: K.Id, expected: Option<int>, now: int): K.Proposal<Concept> {
    K.Proposal(key, K.Evidence(id, c, K.Confirmed, 1.0), K.Supersede(expected), now)
  }

  function Correct(x: Texts, s: Store, known: set<string>, key: Key, c: Concept, id: K.Id, expected: Option<int>,
      now: int)
    : Result<Store, Error>
  {
    var problem := Checked(x, known, key, c);
    if problem.Some? then Err(problem.value)
    else if !TermsFree(x, s, key, c) then Err(TermTaken)
    else Write(x, s, Correction(key, c, id, expected, now))
  }

  /******* Runs *******/

  datatype Event =
    | ProposeEvent(known: set<string>, key: Key, evidence: K.Evidence<Concept>, now: int)
    | CorrectEvent(known: set<string>, key: Key, concept: Concept, id: K.Id, expected: Option<int>, now: int)

  function Settle(s: Store, r: Result<Store, Error>): Store {
    if r.Ok? then r.value else s
  }

  function Step(x: Texts, s: Store, e: Event): Store {
    match e
    case ProposeEvent(known, key, evidence, now) => Settle(s, Propose(x, s, known, key, evidence, now))
    case CorrectEvent(known, key, c, id, expected, now) => Settle(s, Correct(x, s, known, key, c, id, expected, now))
  }

  function Run(x: Texts, s: Store, events: seq<Event>): Store {
    if events == [] then s else Step(x, Run(x, s, events[..|events| - 1]), events[|events| - 1])
  }

  /** What a definition must be: a lowercase key, a name and description within bounds, synonyms that differ
      from the name and from each other, and distinct references that the catalog knows. */
  lemma CheckedRule(x: Texts, known: set<string>, key: Key, c: Concept)
    ensures Checked(x, known, key, c).None?
            <==> && 1 <= |key| <= 63 && ('a' <= key[0] <= 'z' || key[0] == '_')
                 && (forall ch <- key :: 'a' <= ch <= 'z' || '0' <= ch <= '9' || ch == '_')
                 && !Blank(c.name) && |c.name| <= 300 && !Blank(c.description) && |c.description| <= 20_000
                 && (forall v <- c.synonyms :: !Blank(v) && x.tokens(v) != x.tokens(c.name))
                 && (forall i, j :: 0 <= i < j < |c.synonyms| ==> x.tokens(c.synonyms[i]) != x.tokens(c.synonyms[j]))
                 && c.refs != [] && (forall r <- c.refs :: !Blank(r) && r in known)
                 && (forall i, j :: 0 <= i < j < |c.refs| ==> c.refs[i] != c.refs[j])
    ensures Checked(x, known, key, c) == Some(UnknownObject)
            <==> Distinct(c.refs) && exists r <- c.refs :: r !in known
  {
  }

  /** Evidence of automation is written if and only if it claims no confirmation, its definition is sound and
      it is new; then the key resolves as evidence does. */
  lemma ProposeRule(x: Texts, s: Store, known: set<string>, key: Key, e: K.Evidence<Concept>, now: int)
    ensures Propose(x, s, known, key, e, now).Ok?
            <==> && e.status in {K.Imported, K.Inferred, K.Status.Unknown} && Checked(x, known, key, e.payload).None?
                 && 0.0 <= e.confidence <= 1.0 && e.id !in s.evidence
    ensures Propose(x, s, known, key, e, now).Ok? ==>
              Ok(Propose(x, s, known, key, e, now).value)
              == K.Propose(s, K.Proposal(key, e, K.Ordinary, now), Same(x))
  {
    K.EvidenceRule(s, K.Proposal(key, e, K.Ordinary, now), Same(x));
  }

  /** A correction is written if and only if its definition is sound, no other confirmed concept has one of
      its terms, it is new, and it names the current version; then the key resolves to it. */
  lemma CorrectRule(x: Texts, s: Store, known: set<string>, key: Key, c: Concept, id: K.Id, expected: Option<int>,
      now: int)
    ensures Correct(x, s, known, key, c, id, expected, now).Ok?
            <==> && Checked(x, known, key, c).None? && TermsFree(x, s, key, c) && id !in s.evidence
                 && (if key in s.resolutions then expected == Some(s.resolutions[key].updated) else expected.None?)
    ensures Checked(x, known, key, c).None? ==>
              (Correct(x, s, known, key, c, id, expected, now) == Err(TermTaken) <==> !TermsFree(x, s, key, c))
    ensures Correct(x, s, known, key, c, id, expected, now).Ok? ==>
              var t := Correct(x, s, known, key, c, id, expected, now).value;
              && t.evidence == s.evidence[id := (key, K.Evidence(id, c, K.Confirmed, 1.0))]
              && t.resolutions
                 == s.resolutions[key := K.Resolution(c, K.Confirmed, 1.0, Some(id),
                                                      K.NextVersion(K.Current(s, key), now))]
  {
    K.CorrectionRule(s, Correction(key, c, id, expected, now), Same(x));
  }

  /** Every stored definition is sound, in every reachable state of atomic steps. */
  lemma {:induction false} DefinitionsAreAcceptable(x: Texts, events: seq<Event>, key: Key)
    requires key in Run(x, K.Empty(), events).resolutions
    ensures Acceptable(x, key, Run(x, K.Empty(), events).resolutions[key].payload)
  {
    if events != [] {
      var before := events[..|events| - 1];
      if key in Run(x, K.Empty(), before).resolutions {
        DefinitionsAreAcceptable(x, before, key);
      }
    }
  }

  function Folds(x: Texts, s: seq<string>): seq<string> {
    seq(|s|, i requires 0 <= i < |s| => x.fold(s[i]))
  }

  lemma {:induction false} FoldedIs(x: Texts, s: seq<string>)
    ensures Folded(x, s) == multiset(Folds(x, s))
  {
    if s != [] {
      FoldedIs(x, s[1..]);
      assert Folds(x, s) == [x.fold(s[0])] + Folds(x, s[1..]);
    }
  }

  /** Two definitions say the same exactly when each can be written as the other, up to case in texts and the
      order of synonyms and references. */
  lemma SameExactly(x: Texts, a: Concept, b: Concept)
    ensures Same(x)(a, b)
            <==> && x.fold(a.name) == x.fold(b.name) && x.fold(a.description) == x.fold(b.description)
                 && multiset(Folds(x, a.synonyms)) == multiset(Folds(x, b.synonyms))
                 && multiset(a.refs) == multiset(b.refs) && a.classification == b.classification
  {
    FoldedIs(x, a.synonyms);
    FoldedIs(x, b.synonyms);
  }

  predicate TermsDisjoint(x: Texts, s: Store) {
    forall a <- s.resolutions, b <- s.resolutions ::
      a != b && K.Stands(s, a) && K.Stands(s, b) ==> OwnTerms(x, s, a) !! OwnTerms(x, s, b)
  }

  lemma StepKeepsTermsDisjoint(x: Texts, s: Store, e: Event)
    requires TermsDisjoint(x, s)
    ensures TermsDisjoint(x, Step(x, s, e))
  {
    var t := Step(x, s, e);
    forall k | K.Stands(t, k) && (e.ProposeEvent? || k != e.key)
      ensures K.Stands(s, k) && t.resolutions[k] == s.resolutions[k]
    {
    }
  }

  /** In every reachable state distinct confirmed concepts have no term in common. */
  lemma {:induction false} ConfirmedTermsAreDisjoint(x: Texts, s: Store, events: seq<Event>)
    requires TermsDisjoint(x, s)
    ensures TermsDisjoint(x, Run(x, s, events))
  {
    if events != [] {
      ConfirmedTermsAreDisjoint(x, s, events[..|events| - 1]);
      StepKeepsTermsDisjoint(x, Run(x, s, events[..|events| - 1]), events[|events| - 1]);
    }
  }

  /** The check and the write are two calls. When another correction comes between them, both pass the
      check and the concepts end up sharing a term. */
  lemma SeparateCheckCanShareTerms(x: Texts, s: Store, known: set<string>, a: Key, b: Key, ca: Concept, cb: Concept,
                                   ida: K.Id, idb: K.Id, now: int, term: Term)
    requires a != b && a !in s.resolutions && b !in s.resolutions
    requires Checked(x, known, a, ca).None? && Checked(x, known, b, cb).None?
    requires TermsFree(x, s, a, ca) && TermsFree(x, s, b, cb)
    requires term in TermsOf(x, a, ca) && term in TermsOf(x, b, cb)
    requires ida != idb && ida !in s.evidence && idb !in s.evidence
    ensures var first := Write(x, s, Correction(a, ca, ida, None, now));
            && first.Ok?
            && var second := Write(x, first.value, Correction(b, cb, idb, None, now));
               && second.Ok? && K.Stands(second.value, a) && K.Stands(second.value, b)
               && !TermsDisjoint(x, second.value)
    ensures Correct(x, Settle(s, Correct(x, s, known, a, ca, ida, None, now)), known, b, cb, idb, None, now)
        == Err(TermTaken)
  {
    var t := Write(x, s, Correction(a, ca, ida, None, now)).value;
    var u := Write(x, t, Correction(b, cb, idb, None, now)).value;
    assert term in OwnTerms(x, u, a) && term in OwnTerms(x, u, b);
    assert K.Stands(t, a) && term in OwnTerms(x, t, a);
  }

  /******* Checking, reading and writing apart *******/

  /** The checks of proposing or correcting a concept. */
  predicate Admitted(x: Texts, s: Store, known: set<string>, p: K.Proposal<Concept>) {
    && K.FromService(p) && Checked(x, known, p.key, p.evidence.payload).None?
    && (p.mode.Supersede? ==> TermsFree(x, s, p.key, p.evidence.payload))
  }

  /** Replicas that share the tables, and what their clients have checked but not yet proposed. */
  datatype Replicas = Replicas(records: K.World<Concept>, checked: map<K.Client, K.Proposal<Concept>>)

  datatype Phase =
    | CheckPhase(client: K.Client, known: set<string>, concept: K.Proposal<Concept>)
    | ReadPhase(client: K.Client)
    | WritePhase(client: K.Client)

  function Advance(x: Texts, r: Replicas, e: Phase): Replicas {
    match e
    case CheckPhase(client, known, p) =>
      if !Admitted(x, r.records.store, known, p) then r else r.(checked := r.checked[client := p])
    case ReadPhase(client) =>
      if client !in r.checked then r
      else Replicas(K.Advance(r.records, K.Read(client, r.checked[client]), Same(x)), r.checked - {client})
    case WritePhase(client) => r.(records := K.Advance(r.records, K.Write(client), Same(x)))
  }

  function Interleave(x: Texts, r: Replicas, phases: seq<Phase>): Replicas {
    if phases == [] then r else Advance(x, Interleave(x, r, phases[..|phases| - 1]), phases[|phases| - 1])
  }

  predicate FromServices(r: Replicas) {
    (forall c <- r.checked :: K.FromService(r.checked[c])) && K.PendingFromService(r.records)
  }

  /** An accepted write keeps the terms disjoint exactly when it is no correction, or its terms are free in
      the state it writes to. */
  lemma CommitKeepsTermsExactly(x: Texts, s: Store, q: K.Pending<Concept>)
    requires TermsDisjoint(x, s) && K.FromService(q.proposal) && K.Commit(s, q, Same(x)).Ok?
    ensures TermsDisjoint(x, K.Commit(s, q, Same(x)).value)
            <==> (q.proposal.mode.Supersede? ==> TermsFree(x, s, q.proposal.key, q.proposal.evidence.payload))
  {
    var p, t := q.proposal, K.Commit(s, q, Same(x)).value;
    forall k | k != p.key ensures K.Stands(t, k) <==> K.Stands(s, k) {
    }
    if p.mode.Supersede? {
      assert K.Stands(t, p.key) && OwnTerms(x, t, p.key) == TermsOf(x, p.key, p.evidence.payload);
      if TermsDisjoint(x, t) {
        forall k | k in s.resolutions && k != p.key && K.Stands(s, k)
          ensures TermsOf(x, p.key, p.evidence.payload) !! OwnTerms(x, s, k)
        {
          assert OwnTerms(x, t, p.key) !! OwnTerms(x, t, k);
        }
      }
    } else {
      assert K.Stands(t, p.key) ==> K.Stands(s, p.key) && t.resolutions[p.key] == s.resolutions[p.key];
    }
  }

  /** An accepted correction finds its terms free when it writes. */
  predicate WritesFree(x: Texts, r: Replicas, e: Phase) {
    e.WritePhase? && e.client in r.records.pending ==>
      var q := r.records.pending[e.client];
      K.Commit(r.records.store, q, Same(x)).Ok? && q.proposal.mode.Supersede? ==>
        TermsFree(x, r.records.store, q.proposal.key, q.proposal.evidence.payload)
  }

  predicate AllWritesFree(x: Texts, r: Replicas, phases: seq<Phase>) {
    phases != [] ==>
      var n := |phases| - 1;
      AllWritesFree(x, r, phases[..n]) && WritesFree(x, Interleave(x, r, phases[..n]), phases[n])
  }

  predicate AlwaysDisjoint(x: Texts, r: Replicas, phases: seq<Phase>) {
    && TermsDisjoint(x, Interleave(x, r, phases).records.store)
    && (phases != [] ==> AlwaysDisjoint(x, r, phases[..|phases| - 1]))
  }

  lemma {:induction false} ServicesOnly(x: Texts, r: Replicas, phases: seq<Phase>)
    requires FromServices(r)
    ensures FromServices(Interleave(x, r, phases))
  {
    if phases != [] {
      ServicesOnly(x, r, phases[..|phases| - 1]);
    }
  }

  lemma AdvanceKeepsTermsExactly(x: Texts, r: Replicas, e: Phase)
    requires FromServices(r) && TermsDisjoint(x, r.records.store)
    ensures TermsDisjoint(x, Advance(x, r, e).records.store) <==> WritesFree(x, r, e)
  {
    if e.WritePhase? && e.client in r.records.pending {
      var q := r.records.pending[e.client];
      if K.Commit(r.records.store, q, Same(x)).Ok? {
        CommitKeepsTermsExactly(x, r.records.store, q);
      }
    }
  }

  /** However checks, reads and writes interleave: confirmed concepts have disjoint terms in every state of a
      run if and only if every accepted correction found its terms free when it wrote. */
  lemma {:induction false} TermsStayDisjointExactly(x: Texts, r: Replicas, phases: seq<Phase>)
    requires FromServices(r) && TermsDisjoint(x, r.records.store)
    ensures AlwaysDisjoint(x, r, phases) <==> AllWritesFree(x, r, phases)
  {
    if phases != [] {
      var n := |phases| - 1;
      TermsStayDisjointExactly(x, r, phases[..n]);
      ServicesOnly(x, r, phases[..n]);
      var u := Interleave(x, r, phases[..n]);
      if AlwaysDisjoint(x, r, phases[..n]) {
        assert TermsDisjoint(x, u.records.store) by { assert AlwaysDisjoint(x, r, phases[..n]); }
        AdvanceKeepsTermsExactly(x, u, phases[n]);
      }
    }
  }

  /******* Resolving terms *******/

  datatype Row = Row(key: Key, concept: Concept)

  function Owners(x: Texts, rows: seq<Row>, t: Term): seq<Key> {
    if rows == [] then []
    else
      var n := |rows| - 1;
      Owners(x, rows[..n], t) + if t in TermsOf(x, rows[n].key, rows[n].concept) then [rows[n].key] else []
  }

  /** The confirmed resolutions, each once. */
  predicate Lists(rows: seq<Row>, s: Store) {
    && (forall i, j :: 0 <= i < j < |rows| ==> rows[i].key != rows[j].key)
    && (forall r <- rows :: K.Stands(s, r.key) && r.concept == s.resolutions[r.key].payload)
    && (forall k <- s.resolutions :: K.Stands(s, k) ==> Row(k, s.resolutions[k].payload) in rows)
  }

  lemma {:induction false} OwnersAre(x: Texts, rows: seq<Row>, t: Term)
    ensures forall k :: k in Owners(x, rows, t) <==> exists r <- rows :: r.key == k && t in TermsOf(x, r.key, r.concept)
    ensures Owners(x, rows, t) == [] <==> forall r <- rows :: t !in TermsOf(x, r.key, r.concept)
  {
    if rows != [] {
      var n := |rows| - 1;
      OwnersAre(x, rows[..n], t);
      assert rows == rows[..n] + [rows[n]];
    }
  }

  lemma {:induction false} OneOwner(x: Texts, rows: seq<Row>, t: Term)
    requires forall i, j :: 0 <= i < j < |rows| ==>
                              TermsOf(x, rows[i].key, rows[i].concept) !! TermsOf(x, rows[j].key, rows[j].concept)
    ensures |Owners(x, rows, t)| <= 1
  {
    if rows != [] {
      var n := |rows| - 1;
      OneOwner(x, rows[..n], t);
      OwnersAre(x, rows[..n], t);
      if t in TermsOf(x, rows[n].key, rows[n].concept) {
        forall r | r in rows[..n] ensures t !in TermsOf(x, r.key, r.concept) {
          var i :| 0 <= i < n && rows[i] == r;
          assert TermsOf(x, rows[i].key, rows[i].concept) !! TermsOf(x, rows[n].key, rows[n].concept);
        }
      }
    }
  }

  /** With disjoint terms no term of a query is ambiguous, whatever the query. */
  lemma NoTermIsAmbiguous(x: Texts, s: Store, rows: seq<Row>, t: Term)
    requires TermsDisjoint(x, s) && Lists(rows, s)
    ensures |Owners(x, rows, t)| <= 1
  {
    forall i, j | 0 <= i < j < |rows|
      ensures TermsOf(x, rows[i].key, rows[i].concept) !! TermsOf(x, rows[j].key, rows[j].concept)
    {
      assert rows[i] in rows && rows[j] in rows;
      assert OwnTerms(x, s, rows[i].key) !! OwnTerms(x, s, rows[j].key);
    }
    OneOwner(x, rows, t);
  }

  datatype Answer = Answer(matches: map<Key, set<Term>>, ambiguities: map<Term, set<Key>>)

  predicate Uses(x: Texts, s: Store, key: Key, t: Term) {
    K.Stands(s, key) && t in OwnTerms(x, s, key)
  }

  predicate Shared(x: Texts, s: Store, t: Term) {
    exists a <- s.resolutions, b <- s.resolutions :: a != b && Uses(x, s, a, t) && Uses(x, s, b, t)
  }

  /** What a query leads to: each of its terms with one owner, to that owner; the others are ambiguous
      and lead nowhere. */
  ghost predicate Answers(x: Texts, s: Store, query: seq<Token>, a: Answer) {
    && (forall t, k :: t in a.ambiguities && k in a.ambiguities[t] <==>
                         Uses(x, s, k, t) && Matches(t, query) && Shared(x, s, t))
    && (forall t <- a.ambiguities :: a.ambiguities[t] != {})
    && (forall k, t :: k in a.matches && t in a.matches[k] <==>
                         Uses(x, s, k, t) && Matches(t, query) && !Shared(x, s, t))
    && (forall k <- a.matches :: a.matches[k] != {})
  }

  lemma {:induction false} OwnersDistinct(x: Texts, rows: seq<Row>, t: Term)
    requires forall i, j :: 0 <= i < j < |rows| ==> rows[i].key != rows[j].key
    ensures Distinct(Owners(x, rows, t))
  {
    if rows != [] {
      var n := |rows| - 1;
      OwnersDistinct(x, rows[..n], t);
      OwnersAre(x, rows[..n], t);
      forall k | k in Owners(x, rows[..n], t) ensures k != rows[n].key {
        var i :| 0 <= i < n && rows[..n][i].key == k;
      }
      var os := Owners(x, rows, t);
      forall i, j | 0 <= i < j < |os| ensures os[i] != os[j] {
        assert os[i] == Owners(x, rows[..n], t)[i];
        assert os[i] in Owners(x, rows[..n], t);
      }
    }
  }

  lemma OwnersUse(x: Texts, s: Store, rows: seq<Row>, t: Term)
    requires Lists(rows, s)
    ensures forall k :: k in Owners(x, rows, t) <==> Uses(x, s, k, t)
    ensures |Owners(x, rows, t)| > 1 <==> Shared(x, s, t)
  {
    OwnersAre(x, rows, t);
    OwnersDistinct(x, rows, t);
    var os := Owners(x, rows, t);
    forall k | Uses(x, s, k, t) ensures k in os {
      assert Row(k, s.resolutions[k].payload) in rows;
    }
    if |os| > 1 {
      assert os[0] in os && os[1] in os;
      assert os[0] != os[1] && Uses(x, s, os[0], t) && Uses(x, s, os[1], t);
      assert os[0] in s.resolutions && os[1] in s.resolutions;
    }
    if Shared(x, s, t) {
      var a, b :| a in s.resolutions && b in s.resolutions && a != b && Uses(x, s, a, t) && Uses(x, s, b, t);
      assert a in os && b in os;
    }
  }

  function At(owners: map<Term, seq<Key>>, t: Term): seq<Key> {
    if t in owners then owners[t] else []
  }

  /** A text of the confirmed concept at k. */
  predicate Stated(s: Store, k: Key, v: string) {
    K.Stands(s, k) && Says(k, s.resolutions[k].payload, v)
  }

  lemma UsesByText(x: Texts, s: Store, k: Key, t: Term)
    ensures Uses(x, s, k, t) <==> exists v :: Stated(s, k, v) && x.tokens(v) == t
  {
    if K.Stands(s, k) {
      TermsAreTexts(x, k, s.resolutions[k].payload, t);
      if v :| Says(k, s.resolutions[k].payload, v) && x.tokens(v) == t {
        assert Stated(s, k, v);
      }
    }
  }

  /** What an answer says of a text of a confirmed concept: if its tokens stand next to each other in the
      query it leads to that concept, unless another confirmed concept has a text with the same tokens; then
      it is ambiguous between them. */
  ghost predicate TextsLead(x: Texts, s: Store, query: seq<Token>, a: Answer) {
    forall k, v :: Stated(s, k, v) && x.tokens(v) != [] && Sublist(x.tokens(v), query) ==>
      if exists o, u :: o != k && Stated(s, o, u) && x.tokens(u) == x.tokens(v)
      then x.tokens(v) in a.ambiguities && k in a.ambiguities[x.tokens(v)]
      else k in a.matches && x.tokens(v) in a.matches[k]
  }

  /** Nothing else is answered. */
  ghost predicate OnlyTextsLead(x: Texts, s: Store, query: seq<Token>, a: Answer) {
    && (forall k <- a.matches :: forall t <- a.matches[k] :: Asked(x, s, k, t, query))
    && (forall t <- a.ambiguities :: forall k <- a.ambiguities[t] :: Asked(x, s, k, t, query))
  }

  /** The query has the tokens of some text of the confirmed concept at k. */
  ghost predicate Asked(x: Texts, s: Store, k: Key, t: Term, query: seq<Token>) {
    t != [] && Sublist(t, query) && exists v :: Stated(s, k, v) && x.tokens(v) == t
  }

  lemma AnswersByText(x: Texts, s: Store, query: seq<Token>, a: Answer)
    requires query != [] && Answers(x, s, query, a)
    ensures TextsLead(x, s, query, a) && OnlyTextsLead(x, s, query, a)
  {
    forall k, v | Stated(s, k, v) && x.tokens(v) != [] && Sublist(x.tokens(v), query)
      ensures if exists o, u :: o != k && Stated(s, o, u) && x.tokens(u) == x.tokens(v)
              then x.tokens(v) in a.ambiguities && k in a.ambiguities[x.tokens(v)]
              else k in a.matches && x.tokens(v) in a.matches[k]
    {
      MatchingIsTokenMatching(x.tokens(v), query);
      UsesByText(x, s, k, x.tokens(v));
      SharedByText(x, s, k, x.tokens(v));
    }
    forall k, t | k in a.matches && t in a.matches[k] ensures Asked(x, s, k, t, query) {
      MatchedByText(x, s, k, t, query);
    }
    forall t, k | t in a.ambiguities && k in a.ambiguities[t] ensures Asked(x, s, k, t, query) {
      MatchedByText(x, s, k, t, query);
    }
  }

  lemma MatchedByText(x: Texts, s: Store, k: Key, t: Term, query: seq<Token>)
    requires query != [] && Uses(x, s, k, t) && Matches(t, query)
    ensures Asked(x, s, k, t, query)
  {
    UsesByText(x, s, k, t);
    EmptyTermOrQuery(query);
    if t != [] {
      MatchingIsTokenMatching(t, query);
    }
  }

  lemma SharedByText(x: Texts, s: Store, k: Key, t: Term)
    requires Uses(x, s, k, t)
    ensures Shared(x, s, t) <==> exists o, u :: o != k && Stated(s, o, u) && x.tokens(u) == t
  {
    forall o ensures Uses(x, s, o, t) <==> exists u :: Stated(s, o, u) && x.tokens(u) == t {
      UsesByText(x, s, o, t);
    }
    if o, u :| o != k && Stated(s, o, u) && x.tokens(u) == t {
      assert o in s.resolutions && Uses(x, s, o, t);
    }
  }

  /** A correction's terms are free exactly when no text of another confirmed concept has the tokens of one
      of its own. */
  lemma TermsFreeByText(x: Texts, s: Store, key: Key, c: Concept)
    ensures TermsFree(x, s, key, c)
            <==> forall k, u, v :: k != key && Stated(s, k, u) && Says(key, c, v) ==> x.tokens(u) != x.tokens(v)
  {
    if TermsFree(x, s, key, c) {
      forall k, u, v | k != key && Stated(s, k, u) && Says(key, c, v) ensures x.tokens(u) != x.tokens(v) {
        TermsAreTexts(x, key, c, x.tokens(v));
        UsesByText(x, s, k, x.tokens(u));
      }
    } else {
      var k :| k in s.resolutions && k != key && K.Stands(s, k) && !(TermsOf(x, key, c) !! OwnTerms(x, s, k));
      var t :| t in TermsOf(x, key, c) && t in OwnTerms(x, s, k);
      TermsAreTexts(x, key, c, t);
      UsesByText(x, s, k, t);
      var u :| Stated(s, k, u) && x.tokens(u) == t;
      var v :| Says(key, c, v) && x.tokens(v) == t;
    }
  }

  /** In every reachable state of atomic steps no name, synonym or key read with spaces of one confirmed
      concept has the tokens of one of another. */
  lemma ConfirmedTextsDiffer(x: Texts, events: seq<Event>, a: Key, b: Key, u: string, v: string)
    requires var s := Run(x, K.Empty(), events); a != b && Stated(s, a, u) && Stated(s, b, v)
    ensures x.tokens(u) != x.tokens(v)
  {
    var s := Run(x, K.Empty(), events);
    ConfirmedTermsAreDisjoint(x, K.Empty(), events);
    UsesByText(x, s, a, x.tokens(u));
    UsesByText(x, s, b, x.tokens(v));
    assert OwnTerms(x, s, a) !! OwnTerms(x, s, b);
  }

  predicate UsedByOther(x: Texts, rows: seq<Row>, key: Key, t: Term) {
    exists r <- rows :: r.key != key && t in TermsOf(x, r.key, r.concept)
  }

  /** Some text of another confirmed concept and some text of this candidate have these tokens. */
  ghost predicate Collide(x: Texts, s: Store, key: Key, c: Concept, t: Term) {
    exists k, u, v :: k != key && Stated(s, k, u) && Says(key, c, v) && x.tokens(u) == x.tokens(v) == t
  }

  lemma CollideByText(x: Texts, s: Store, rows: seq<Row>, key: Key, c: Concept, t: Term)
    requires Lists(rows, s)
    ensures t in TermsOf(x, key, c) && UsedByOther(x, rows, key, t) <==> Collide(x, s, key, c, t)
  {
    TermsAreTexts(x, key, c, t);
    if r :| r in rows && r.key != key && t in TermsOf(x, r.key, r.concept) {
      UsesByText(x, s, r.key, t);
      assert Uses(x, s, r.key, t);
      if t in TermsOf(x, key, c) {
        var u :| Stated(s, r.key, u) && x.tokens(u) == t;
        var v :| Says(key, c, v) && x.tokens(v) == t;
        assert Collide(x, s, key, c, t);
      }
    }
    if Collide(x, s, key, c, t) {
      var k, u, v :| k != key && Stated(s, k, u) && Says(key, c, v) && x.tokens(u) == x.tokens(v) == t;
      UsesByText(x, s, k, t);
      assert Row(k, s.resolutions[k].payload) in rows;
    }
  }

  lemma CollisionsAre(x: Texts, s: Store, rows: seq<Row>, key: Key, c: Concept, collisions: set<Term>)
    requires Lists(rows, s)
    requires forall t :: t in collisions <==> t in TermsOf(x, key, c) && UsedByOther(x, rows, key, t)
    ensures collisions == {} <==> TermsFree(x, s, key, c)
    ensures forall t :: t in collisions <==> Collide(x, s, key, c, t)
  {
    forall t ensures t in collisions <==> Collide(x, s, key, c, t) {
      CollideByText(x, s, rows, key, c, t);
    }
    TermsFreeByText(x, s, key, c);
    if collisions == {} {
      forall k, u, v | k != key && Stated(s, k, u) && Says(key, c, v) ensures x.tokens(u) != x.tokens(v) {
        assert x.tokens(u) == x.tokens(v) ==> Collide(x, s, key, c, x.tokens(u));
      }
    } else {
      var t :| t in collisions;
      assert Collide(x, s, key, c, t);
    }
  }

  /******* The service *******/

  class BusinessConcepts {
    const texts: Texts
    var store: Store

    constructor (texts: Texts)
      ensures this.texts == texts && store == K.Empty()
    {
      this.texts := texts;
      store := K.Empty();
    }

    method ProposeConcept(known: set<string>, key: Key, e: K.Evidence<Concept>, now: int) returns (r: Result<(), Error>)
      modifies this`store
      ensures store == Step(texts, old(store), ProposeEvent(known, key, e, now))
      ensures r.Err? ==> store == old(store)
      ensures r.Ok? <==> Propose(texts, old(store), known, key, e, now).Ok?
    {
      if !Proposable(e.status) {
        return Err(BadConcept);
      }
      var problem := Checked(texts, known, key, e.payload);
      if problem.Some? {
        return Err(problem.value);
      }
      match K.Propose(store, K.Proposal(key, e, K.Ordinary, now), Same(texts))
      case Err(cause) =>
        r := Err(Refused(cause));
      case Ok(after) =>
        store := after;
        r := Ok(());
    }

    /** The candidate's terms that other confirmed concepts have. */
    method Collisions(key: Key, c: Concept) returns (collisions: set<Term>)
      ensures collisions == {} <==> TermsFree(texts, store, key, c)
      ensures forall t :: t in collisions <==> Collide(texts, store, key, c, t)
    {
      var rows := ListConfirmed();
      collisions := {};
      for i := 0 to |rows|
        invariant forall t :: t in collisions <==> t in TermsOf(texts, key, c) && UsedByOther(texts, rows[..i], key, t)
      {
        assert rows[..i + 1] == rows[..i] + [rows[i]];
        if rows[i].key != key {
          collisions := collisions + TermsOf(texts, key, c) * TermsOf(texts, rows[i].key, rows[i].concept);
        }
      }
      assert rows[..|rows|] == rows;
      CollisionsAre(texts, store, rows, key, c, collisions);
    }

    method CorrectConcept(known: set<string>, key: Key, c: Concept, id: K.Id, expected: Option<int>, now: int)
      returns (r: Result<(), Error>)
      modifies this`store
      ensures store == Step(texts, old(store), CorrectEvent(known, key, c, id, expected, now))
      ensures match Correct(texts, old(store), known, key, c, id, expected, now)
              case Ok(_) => r == Ok(())
              case Err(e) => r == Err(e) && store == old(store)
    {
      var problem := Checked(texts, known, key, c);
      if problem.Some? {
        return Err(problem.value);
      }
      var collisions := Collisions(key, c);
      if collisions != {} {
        return Err(TermTaken);
      }
      match K.Propose(store, Correction(key, c, id, expected, now), Same(texts))
      case Err(cause) =>
        r := Err(Refused(cause));
      case Ok(after) =>
        store := after;
        r := Ok(());
    }

    method ListConfirmed() returns (rows: seq<Row>)
      ensures Lists(rows, store)
    {
      rows := [];
      var keys := store.resolutions.Keys;
      while keys != {}
        invariant keys <= store.resolutions.Keys
        invariant forall i, j :: 0 <= i < j < |rows| ==> rows[i].key != rows[j].key
        invariant forall r <- rows :: K.Stands(store, r.key) && r.concept == store.resolutions[r.key].payload
        invariant forall r <- rows :: r.key !in keys
        invariant forall k <- store.resolutions :: K.Stands(store, k) && k !in keys ==>
            Row(k, store.resolutions[k].payload) in rows
        decreases |keys|
      {
        var k :| k in keys;
        keys := keys - {k};
        if K.Stands(store, k) {
          rows := rows + [Row(k, store.resolutions[k].payload)];
        }
      }
    }

    method AddOwner(owners: map<Term, seq<Key>>, terms: set<Term>, key: Key) returns (more: map<Term, seq<Key>>)
      ensures forall t :: At(more, t) == At(owners, t) + if t in terms then [key] else []
      ensures forall t :: t in more <==> t in owners || t in terms
    {
      more := owners;
      var left := terms;
      while left != {}
        invariant left <= terms
        invariant forall t :: At(more, t) == At(owners, t) + if t in terms - left then [key] else []
        invariant forall t :: t in more <==> t in owners || t in terms - left
        decreases |left|
      {
        var t :| t in left;
        left := left - {t};
        more := more[t := At(more, t) + [key]];
      }
    }

    /** Which concepts each term of the listed rows belongs to. */
    method TermMap(rows: seq<Row>) returns (owners: map<Term, seq<Key>>)
      ensures forall t :: t in owners <==> Owners(texts, rows, t) != []
      ensures forall t <- owners :: owners[t] == Owners(texts, rows, t)
    {
      owners := map[];
      for i := 0 to |rows|
        invariant forall t :: At(owners, t) == Owners(texts, rows[..i], t)
        invariant forall t :: t in owners <==> At(owners, t) != []
      {
        owners := AddOwner(owners, TermsOf(texts, rows[i].key, rows[i].concept), rows[i].key);
        assert rows[..i + 1][..i] == rows[..i];
      }
      assert rows[..|rows|] == rows;
    }

    /** The terms of a query, the ambiguous ones apart. With disjoint confirmed terms nothing is ambiguous. */
    method ResolveTerms(query: string) returns (r: Result<Answer, Error>)
      ensures r.Err? <==> texts.tokens(query) == []
      ensures r.Ok? ==> Answers(texts, store, texts.tokens(query), r.value)
      ensures r.Ok? ==> TextsLead(texts, store, texts.tokens(query), r.value)
      ensures r.Ok? ==> OnlyTextsLead(texts, store, texts.tokens(query), r.value)
      ensures r.Ok? && TermsDisjoint(texts, store) ==> r.value.ambiguities == map[]
    {
      var tokens := texts.tokens(query);
      if tokens == [] {
        return Err(BadConcept);
      }
      var rows := ListConfirmed();
      var owners := TermMap(rows);
      var answer := Sift(owners, tokens);
      AnswerIs(texts, store, rows, tokens, owners, answer);
      AnswersByText(texts, store, tokens, answer);
      if TermsDisjoint(texts, store) {
        forall t ensures t !in answer.ambiguities {
          NoTermIsAmbiguous(texts, store, rows, t);
        }
        assert answer.ambiguities.Keys == {};
      }
      r := Ok(answer);
    }

    method Sift(owners: map<Term, seq<Key>>, tokens: seq<Token>) returns (a: Answer)
      requires forall t <- owners :: owners[t] != []
      ensures Sifted(owners, tokens, {}, a)
    {
      a := Answer(map[], map[]);
      var left := owners.Keys;
      while left != {}
        invariant left <= owners.Keys
        invariant Sifted(owners, tokens, left, a)
        decreases |left|
      {
        var t :| t in left;
        left := left - {t};
        if Matches(t, tokens) {
          if |owners[t]| > 1 {
            a := a.(ambiguities := a.ambiguities[t := set k <- owners[t]]);
          } else {
            var k := owners[t][0];
            a := a.(matches := a.matches[k := (if k in a.matches then a.matches[k] else {}) + {t}]);
          }
        }
      }
    }
  }

  /** The answer so far, with some terms left. */
  ghost predicate Sifted(owners: map<Term, seq<Key>>, tokens: seq<Token>, left: set<Term>, a: Answer) {
    && (forall t :: t in a.ambiguities <==> t in owners && t !in left && Matches(t, tokens) && |owners[t]| > 1)
    && (forall t <- a.ambiguities :: t in owners && a.ambiguities[t] == set k <- owners[t])
    && (forall k, t :: k in a.matches && t in a.matches[k] <==>
                         t in owners && t !in left && Matches(t, tokens) && owners[t] == [k])
    && (forall k <- a.matches :: a.matches[k] != {})
  }

  /** Sifting the owners of the listed rows' terms. */
  ghost predicate SiftedFrom(x: Texts, s: Store, rows: seq<Row>, tokens: seq<Token>, owners: map<Term, seq<Key>>,
      a: Answer)
  {
    && Lists(rows, s)
    && (forall t :: t in owners <==> Owners(x, rows, t) != [])
    && (forall t <- owners :: owners[t] == Owners(x, rows, t))
    && Sifted(owners, tokens, {}, a)
  }

  lemma AmbiguityIs(x: Texts, s: Store, rows: seq<Row>, tokens: seq<Token>, owners: map<Term, seq<Key>>, a: Answer,
      t: Term)
    requires SiftedFrom(x, s, rows, tokens, owners, a)
    ensures forall k ::
              t in a.ambiguities && k in a.ambiguities[t] <==> Uses(x, s, k, t) && Matches(t, tokens) && Shared(x, s, t)
    ensures t in a.ambiguities ==> a.ambiguities[t] != {}
  {
    OwnersUse(x, s, rows, t);
    if t in a.ambiguities {
      assert owners[t][0] in a.ambiguities[t];
    }
  }

  lemma MatchIs(x: Texts, s: Store, rows: seq<Row>, tokens: seq<Token>, owners: map<Term, seq<Key>>, a: Answer,
      t: Term, k: Key)
    requires SiftedFrom(x, s, rows, tokens, owners, a)
    ensures k in a.matches && t in a.matches[k] <==> Uses(x, s, k, t) && Matches(t, tokens) && !Shared(x, s, t)
  {
    OwnersUse(x, s, rows, t);
    OnlyOwner(Owners(x, rows, t), k);
    assert k in a.matches && t in a.matches[k] <==> t in owners && Matches(t, tokens) && owners[t] == [k];
  }

  lemma OnlyOwner(os: seq<Key>, k: Key)
    ensures os == [k] <==> k in os && |os| <= 1
  {
  }

  lemma AnswerIs(x: Texts, s: Store, rows: seq<Row>, tokens: seq<Token>, owners: map<Term, seq<Key>>, a: Answer)
    requires SiftedFrom(x, s, rows, tokens, owners, a)
    ensures Answers(x, s, tokens, a)
  {
    forall t
      ensures forall k ::
                t in a.ambiguities && k in a.ambiguities[t]
                <==> Uses(x, s, k, t) && Matches(t, tokens) && Shared(x, s, t)
             ensures t in a.ambiguities ==> a.ambiguities[t] != {}
    {
      AmbiguityIs(x, s, rows, tokens, owners, a, t);
    }
    forall t, k
      ensures k in a.matches && t in a.matches[k] <==> Uses(x, s, k, t) && Matches(t, tokens) && !Shared(x, s, t)
    {
      MatchIs(x, s, rows, tokens, owners, a, t, k);
    }
  }
}
