/**
 Metrics and business rules over the catalog. What they depend on is confirmed when a client checks its
 definition; checking, reading the current resolution and writing are separate steps of any number of
 clients on any number of replicas.
 */
module Analytics {
  import opened Wrappers
  import opened Text
  import opened TermMatch
  import opened Concepts
  import K = Knowledge

  /** The SQL fragment is validated and its column references extracted before it gets here. */
  datatype Metric = Metric(
    name: string, description: string, expression: string, refs: seq<string>, grain: seq<string>,
    dimensions: seq<string>, concepts: seq<Key>, rules: seq<Key>, classification: string)

  datatype Rule = Rule(
    name: string, description: string, predicateSql: string, refs: seq<string>, concepts: seq<Key>,
        classification: string)

  datatype Catalog = Catalog(concepts: Store, metrics: K.Store<Metric>, rules: K.Store<Rule>)

  type Client = string

  /** The three tables with the rows their clients have read, and the definitions clients have checked but
      not yet proposed. */
  datatype World = World(
    concepts: Replicas, metrics: K.World<Metric>, rules: K.World<Rule>,
    checkedMetrics: map<Client, K.Proposal<Metric>>, checkedRules: map<Client, K.Proposal<Rule>>)

  function CatalogOf(w: World): Catalog {
    Catalog(w.concepts.records.store, w.metrics.store, w.rules.store)
  }

  /******* Checks *******/

  predicate AllStand<P>(s: K.Store<P>, keys: seq<Key>) {
    forall k <- keys :: K.Stands(s, k)
  }

  predicate MetricGrounded(c: Catalog, m: Metric) {
    AllStand(c.concepts, m.concepts) && AllStand(c.rules, m.rules)
  }

  predicate RuleGrounded(c: Catalog, r: Rule) {
    AllStand(c.concepts, r.concepts)
  }

  predicate MetricNameFree(x: Texts, c: Catalog, key: Key, name: string) {
    forall k <- c.metrics.resolutions ::
      K.Stands(c.metrics, k) && k != key ==> x.tokens(c.metrics.resolutions[k].payload.name) != x.tokens(name)
  }

  predicate RuleNameFree(x: Texts, c: Catalog, key: Key, name: string) {
    forall k <- c.rules.resolutions ::
      K.Stands(c.rules, k) && k != key ==> x.tokens(c.rules.resolutions[k].payload.name) != x.tokens(name)
  }

  predicate Keys(keys: seq<Key>) {
    Distinct(keys) && forall k <- keys :: LowerIdentifier(k)
  }

  predicate Described(name: string, description: string) {
    !Blank(name) && |name| <= 300 && !Blank(description) && |description| <= 20_000
  }

  predicate Columns(refs: seq<string>) {
    refs != [] && Distinct(refs) && forall r <- refs :: !Blank(r)
  }

  /** What constructing a definition checks, but for its SQL. */
  predicate MetricSound(key: Key, m: Metric) {
    && LowerIdentifier(key) && Described(m.name, m.description) && Columns(m.refs)
    && m.grain != [] && Distinct(m.grain) && Distinct(m.dimensions)
    && (forall r <- m.grain + m.dimensions :: r in m.refs) && Keys(m.concepts) && Keys(m.rules)
  }

  predicate RuleSound(key: Key, r: Rule) {
    LowerIdentifier(key) && Described(r.name, r.description) && Columns(r.refs) && Keys(r.concepts)
  }

  predicate MetricAdmitted(x: Texts, c: Catalog, p: K.Proposal<Metric>) {
    var m := p.evidence.payload;
    && K.FromService(p) && MetricSound(p.key, m)
    && MetricGrounded(c, m) && (p.mode.Supersede? ==> MetricNameFree(x, c, p.key, m.name))
  }

  predicate RuleAdmitted(x: Texts, c: Catalog, p: K.Proposal<Rule>) {
    var r := p.evidence.payload;
    && K.FromService(p) && RuleSound(p.key, r)
    && RuleGrounded(c, r) && (p.mode.Supersede? ==> RuleNameFree(x, c, p.key, r.name))
  }

  function SameMetric(x: Texts): (Metric, Metric) -> bool {
    (a: Metric, b: Metric) =>
      x.fold(a.name) == x.fold(b.name) && x.fold(a.description) == x.fold(b.description)
      && a.expression == b.expression && multiset(a.refs) == multiset(b.refs) && multiset(a.grain) == multiset(b.grain)
      && multiset(a.dimensions) == multiset(b.dimensions) && multiset(a.concepts) == multiset(b.concepts)
      && multiset(a.rules) == multiset(b.rules) && a.classification == b.classification
  }

  function SameRule(x: Texts): (Rule, Rule) -> bool {
    (a: Rule, b: Rule) =>
      x.fold(a.name) == x.fold(b.name) && x.fold(a.description) == x.fold(b.description)
      && a.predicateSql == b.predicateSql && multiset(a.refs) == multiset(b.refs)
      && multiset(a.concepts) == multiset(b.concepts) && a.classification == b.classification
  }

  /******* Runs *******/

  datatype Event =
    | ConceptPhase(phase: Phase)
    | CheckMetric(client: Client, metric: K.Proposal<Metric>)
    | ReadMetric(client: Client)
    | WriteMetric(client: Client)
    | CheckRule(client: Client, rule: K.Proposal<Rule>)
    | ReadRule(client: Client)
    | WriteRule(client: Client)

  function Step(x: Texts, w: World, e: Event): World {
    match e
    case ConceptPhase(phase) => w.(concepts := Advance(x, w.concepts, phase))
    case CheckMetric(client, p) =>
      if !MetricAdmitted(x, CatalogOf(w), p) then w else w.(checkedMetrics := w.checkedMetrics[client := p])
    case ReadMetric(client) =>
      if client !in w.checkedMetrics then w
      else
        w.(metrics := K.Advance(w.metrics, K.Read(client, w.checkedMetrics[client]), SameMetric(x)),
           checkedMetrics := w.checkedMetrics - {client})
    case WriteMetric(client) => w.(metrics := K.Advance(w.metrics, K.Write(client), SameMetric(x)))
    case CheckRule(client, p) =>
      if !RuleAdmitted(x, CatalogOf(w), p) then w else w.(checkedRules := w.checkedRules[client := p])
    case ReadRule(client) =>
      if client !in w.checkedRules then w
      else
        w.(rules := K.Advance(w.rules, K.Read(client, w.checkedRules[client]), SameRule(x)),
           checkedRules := w.checkedRules - {client})
    case WriteRule(client) => w.(rules := K.Advance(w.rules, K.Write(client), SameRule(x)))
  }

  const EMPTY :=
    World(Replicas(K.Start(K.Empty()), map[]), K.Start(K.Empty()), K.Start(K.Empty()), map[], map[])

  function Run(x: Texts, events: seq<Event>): World {
    if events == [] then EMPTY else Step(x, Run(x, events[..|events| - 1]), events[|events| - 1])
  }

  /******* Unseating *******/

  /** The client's write takes the confirmation off the key. */
  predicate Unseats<P>(w: K.World<P>, client: Client, same: (P, P) -> bool, key: Key) {
    client in w.pending && K.Stands(w.store, key)
    && K.Lowers(w.store, w.pending[client], same, key, K.Height(K.Confirmed))
  }

  /** The event is a client's write of a concept it has read. */
  predicate WritesConcept(w: World, e: Event) {
    e.ConceptPhase? && e.phase.WritePhase? && e.phase.client in w.concepts.records.pending
  }

  predicate UnseatsConcept(x: Texts, w: World, e: Event, key: Key) {
    WritesConcept(w, e) && Unseats(w.concepts.records, e.phase.client, Same(x), key)
  }

  predicate UnseatsRule(x: Texts, w: World, e: Event, key: Key) {
    e.WriteRule? && Unseats(w.rules, e.client, SameRule(x), key)
  }

  lemma StandsExactly<P>(w: K.World<P>, e: K.Event<P>, same: (P, P) -> bool, key: Key)
    requires K.Stands(w.store, key)
    ensures K.Stands(K.Advance(w, e, same).store, key) <==> !(e.Write? && Unseats(w, e.client, same, key))
  {
  }

  lemma ConceptStands(x: Texts, w: World, e: Event, key: Key)
    requires K.Stands(w.concepts.records.store, key)
    ensures K.Stands(Step(x, w, e).concepts.records.store, key) <==> !UnseatsConcept(x, w, e, key)
  {
    if e.ConceptPhase? && e.phase.WritePhase? {
      StandsExactly(w.concepts.records, K.Write(e.phase.client), Same(x), key);
    }
  }

  lemma RuleStands(x: Texts, w: World, e: Event, key: Key)
    requires K.Stands(w.rules.store, key)
    ensures K.Stands(Step(x, w, e).rules.store, key) <==> !UnseatsRule(x, w, e, key)
  {
    if e.WriteRule? {
      StandsExactly(w.rules, K.Write(e.client), SameRule(x), key);
    }
  }

  /** A write in time unseats nothing: that takes an earlier read. */
  lemma InTimeUnseatsNothing<P>(w: K.World<P>, client: Client, same: (P, P) -> bool, key: Key)
    requires K.InTime(w, K.Write(client)) && K.PendingFromService(w)
    ensures !Unseats(w, client, same, key)
  {
  }

  /******* Grounded catalogs *******/

  /** Whatever a resolution says, what it depends on is confirmed. */
  predicate Grounded(c: Catalog) {
    && (forall k <- c.metrics.resolutions :: MetricGrounded(c, c.metrics.resolutions[k].payload))
    && (forall k <- c.rules.resolutions :: RuleGrounded(c, c.rules.resolutions[k].payload))
  }

  ghost predicate MetricReady(c: Catalog, q: K.Pending<Metric>) {
    MetricGrounded(c, q.proposal.evidence.payload) && (q.read.Some? ==> MetricGrounded(c, q.read.value.payload))
  }

  ghost predicate RuleReady(c: Catalog, q: K.Pending<Rule>) {
    RuleGrounded(c, q.proposal.evidence.payload) && (q.read.Some? ==> RuleGrounded(c, q.read.value.payload))
  }

  /** Also what is checked or read but not yet written. */
  ghost predicate Kept(w: World) {
    var c := CatalogOf(w);
    && Grounded(c)
    && (forall q <- w.checkedMetrics :: MetricGrounded(c, w.checkedMetrics[q].evidence.payload))
    && (forall q <- w.checkedRules :: RuleGrounded(c, w.checkedRules[q].evidence.payload))
    && (forall q <- w.metrics.pending :: MetricReady(c, w.metrics.pending[q]))
    && (forall q <- w.rules.pending :: RuleReady(c, w.rules.pending[q]))
  }

  /** What stands keeps standing. */
  ghost predicate Lasting(c: Catalog, d: Catalog) {
    && (forall k :: K.Stands(c.concepts, k) ==> K.Stands(d.concepts, k))
    && (forall k :: K.Stands(c.rules, k) ==> K.Stands(d.rules, k))
  }

  lemma GroundedLasts(c: Catalog, d: Catalog)
    requires Lasting(c, d)
    ensures forall m :: MetricGrounded(c, m) ==> MetricGrounded(d, m)
    ensures forall r :: RuleGrounded(c, r) ==> RuleGrounded(d, r)
  {
  }

  /** A resolution says what it said before, or what its writer proposed or had read. */
  lemma WrittenPayload<P>(w: K.World<P>, e: K.Event<P>, same: (P, P) -> bool, k: Key)
    requires k in K.Advance(w, e, same).store.resolutions
    ensures var r := K.Advance(w, e, same).store.resolutions[k].payload;
            || (k in w.store.resolutions && r == w.store.resolutions[k].payload)
            || (e.Write? && e.client in w.pending
                && var q := w.pending[e.client];
                   r == q.proposal.evidence.payload || (q.read.Some? && r == q.read.value.payload))
  {
  }

  predicate Quiet(x: Texts, w: World, e: Event) {
    && (WritesConcept(w, e) ==>
          !UnseatsConcept(x, w, e, w.concepts.records.pending[e.phase.client].proposal.key))
    && (e.WriteRule? && e.client in w.rules.pending ==>
          !UnseatsRule(x, w, e, w.rules.pending[e.client].proposal.key))
  }

  lemma QuietLasts(x: Texts, w: World, e: Event)
    requires Quiet(x, w, e)
    ensures Lasting(CatalogOf(w), CatalogOf(Step(x, w, e)))
  {
    forall k | K.Stands(w.concepts.records.store, k) ensures K.Stands(Step(x, w, e).concepts.records.store, k) {
      ConceptStands(x, w, e, k);
    }
    forall k | K.Stands(w.rules.store, k) ensures K.Stands(Step(x, w, e).rules.store, k) {
      RuleStands(x, w, e, k);
    }
  }

  lemma MetricsStayGrounded(x: Texts, w: World, e: Event, d: Catalog)
    requires Kept(w) && Lasting(CatalogOf(w), d)
    ensures forall k <- Step(x, w, e).metrics.store.resolutions ::
              MetricGrounded(d, Step(x, w, e).metrics.store.resolutions[k].payload)
  {
    GroundedLasts(CatalogOf(w), d);
    forall k | k in Step(x, w, e).metrics.store.resolutions
      ensures MetricGrounded(d, Step(x, w, e).metrics.store.resolutions[k].payload)
    {
      if e.WriteMetric? {
        WrittenPayload(w.metrics, K.Write(e.client), SameMetric(x), k);
      }
    }
  }

  lemma RulesStayGrounded(x: Texts, w: World, e: Event, d: Catalog)
    requires Kept(w) && Lasting(CatalogOf(w), d)
    ensures forall k <- Step(x, w, e).rules.store.resolutions ::
              RuleGrounded(d, Step(x, w, e).rules.store.resolutions[k].payload)
  {
    GroundedLasts(CatalogOf(w), d);
    forall k | k in Step(x, w, e).rules.store.resolutions
      ensures RuleGrounded(d, Step(x, w, e).rules.store.resolutions[k].payload)
    {
      if e.WriteRule? {
        WrittenPayload(w.rules, K.Write(e.client), SameRule(x), k);
      }
    }
  }

  lemma MetricsStayReady(x: Texts, w: World, e: Event, d: Catalog)
    requires Kept(w) && Lasting(CatalogOf(w), d)
    ensures forall q <- Step(x, w, e).checkedMetrics ::
        MetricGrounded(d, Step(x, w, e).checkedMetrics[q].evidence.payload)
    ensures forall q <- Step(x, w, e).metrics.pending :: MetricReady(d, Step(x, w, e).metrics.pending[q])
  {
    GroundedLasts(CatalogOf(w), d);
  }

  lemma RulesStayReady(x: Texts, w: World, e: Event, d: Catalog)
    requires Kept(w) && Lasting(CatalogOf(w), d)
    ensures forall q <- Step(x, w, e).checkedRules :: RuleGrounded(d, Step(x, w, e).checkedRules[q].evidence.payload)
    ensures forall q <- Step(x, w, e).rules.pending :: RuleReady(d, Step(x, w, e).rules.pending[q])
  {
    GroundedLasts(CatalogOf(w), d);
  }

  lemma QuietKeeps(x: Texts, w: World, e: Event)
    requires Kept(w) && Quiet(x, w, e)
    ensures Kept(Step(x, w, e))
  {
    var d := CatalogOf(Step(x, w, e));
    QuietLasts(x, w, e);
    MetricsStayGrounded(x, w, e, d);
    RulesStayGrounded(x, w, e, d);
    MetricsStayReady(x, w, e, d);
    RulesStayReady(x, w, e, d);
  }

  predicate AllQuiet(x: Texts, events: seq<Event>) {
    events != [] ==>
      var n := |events| - 1;
      AllQuiet(x, events[..n]) && Quiet(x, Run(x, events[..n]), events[n])
  }

  lemma {:induction false} QuietRunsStayGrounded(x: Texts, events: seq<Event>)
    requires AllQuiet(x, events)
    ensures Kept(Run(x, events))
  {
    if events != [] {
      QuietRunsStayGrounded(x, events[..|events| - 1]);
      QuietKeeps(x, Run(x, events[..|events| - 1]), events[|events| - 1]);
    }
  }

  /** The row a write of a concept or rule replaces is the row its client read. */
  predicate OnTime(w: World, e: Event) {
    && (e.ConceptPhase? && e.phase.WritePhase? ==> K.InTime(w.concepts.records, K.Write(e.phase.client)))
    && (e.WriteRule? ==> K.InTime(w.rules, K.Write(e.client)))
  }

  predicate AllOnTime(x: Texts, events: seq<Event>) {
    events != [] ==>
      var n := |events| - 1;
      AllOnTime(x, events[..n]) && OnTime(Run(x, events[..n]), events[n])
  }

  predicate Served(w: World) {
    && FromServices(w.concepts) && K.PendingFromService(w.rules)
    && forall c <- w.checkedRules :: K.FromService(w.checkedRules[c])
  }

  /** Whatever is checked or read in a run comes from the services. */
  lemma {:induction false} RunIsServed(x: Texts, events: seq<Event>)
    ensures Served(Run(x, events))
  {
    if events != [] {
      RunIsServed(x, events[..|events| - 1]);
    }
  }

  lemma {:induction false} OnTimeIsQuiet(x: Texts, events: seq<Event>)
    requires AllOnTime(x, events)
    ensures AllQuiet(x, events)
  {
    if events != [] {
      var n := |events| - 1;
      var w, e := Run(x, events[..n]), events[n];
      OnTimeIsQuiet(x, events[..n]);
      RunIsServed(x, events[..n]);
      if WritesConcept(w, e) {
        var key := w.concepts.records.pending[e.phase.client].proposal.key;
        InTimeUnseatsNothing(w.concepts.records, e.phase.client, Same(x), key);
      }
      if e.WriteRule? && e.client in w.rules.pending {
        InTimeUnseatsNothing(w.rules, e.client, SameRule(x), w.rules.pending[e.client].proposal.key);
      }
    }
  }

  /** However checks, reads and writes interleave: as long as every write of a concept or rule replaces the
      row its client read, every metric's concepts and rules and every rule's concepts are confirmed. */
  lemma DependenciesStayConfirmed(x: Texts, events: seq<Event>)
    requires AllOnTime(x, events)
    ensures Grounded(CatalogOf(Run(x, events)))
  {
    OnTimeIsQuiet(x, events);
    QuietRunsStayGrounded(x, events);
  }

  /******* One process *******/

  /** What the services of one process do: the checks of any client at any time, and each repository call
      as one step. */
  datatype Call =
    | CheckConceptCall(client: Client, known: set<string>, concept: K.Proposal<Concept>)
    | ConceptCall(client: Client)
    | CheckMetricCall(client: Client, metric: K.Proposal<Metric>)
    | MetricCall(client: Client)
    | CheckRuleCall(client: Client, rule: K.Proposal<Rule>)
    | RuleCall(client: Client)

  function Steps(c: Call): seq<Event> {
    match c
    case CheckConceptCall(client, known, p) => [ConceptPhase(CheckPhase(client, known, p))]
    case ConceptCall(client) => [ConceptPhase(ReadPhase(client)), ConceptPhase(WritePhase(client))]
    case CheckMetricCall(client, p) => [CheckMetric(client, p)]
    case MetricCall(client) => [ReadMetric(client), WriteMetric(client)]
    case CheckRuleCall(client, p) => [CheckRule(client, p)]
    case RuleCall(client) => [ReadRule(client), WriteRule(client)]
  }

  function OneProcess(calls: seq<Call>): seq<Event> {
    if calls == [] then [] else OneProcess(calls[..|calls| - 1]) + Steps(calls[|calls| - 1])
  }

  /** No row is read that is not written. */
  predicate NothingRead(w: World) {
    w.concepts.records.pending == map[] && w.metrics.pending == map[] && w.rules.pending == map[]
  }

  lemma OnTimeThen(x: Texts, events: seq<Event>, e: Event)
    requires AllOnTime(x, events) && OnTime(Run(x, events), e)
    ensures AllOnTime(x, events + [e]) && Run(x, events + [e]) == Step(x, Run(x, events), e)
  {
    assert (events + [e])[..|events|] == events;
  }

  lemma CheckIsOnTime(x: Texts, w: World, c: Call)
    requires NothingRead(w)
    ensures OnTime(w, Steps(c)[0])
    ensures |Steps(c)| == 1 ==> NothingRead(Step(x, w, Steps(c)[0]))
  {
  }

  lemma ReadIsWritten(x: Texts, w: World, c: Call)
    requires NothingRead(w) && |Steps(c)| == 2
    ensures OnTime(Step(x, w, Steps(c)[0]), Steps(c)[1])
    ensures NothingRead(Step(x, Step(x, w, Steps(c)[0]), Steps(c)[1]))
  {
    var v := Step(x, w, Steps(c)[0]);
    assert v.concepts.records.pending.Keys <= {c.client} && v.metrics.pending.Keys <= {c.client};
    assert v.rules.pending.Keys <= {c.client};
  }

  lemma OneCall(x: Texts, events: seq<Event>, c: Call)
    requires AllOnTime(x, events) && NothingRead(Run(x, events))
    ensures AllOnTime(x, events + Steps(c)) && NothingRead(Run(x, events + Steps(c)))
  {
    var steps, w := Steps(c), Run(x, events);
    CheckIsOnTime(x, w, c);
    OnTimeThen(x, events, steps[0]);
    if |steps| == 1 {
      assert steps == [steps[0]];
    } else {
      ReadIsWritten(x, w, c);
      OnTimeThen(x, events + [steps[0]], steps[1]);
      assert events + steps == (events + [steps[0]]) + [steps[1]];
    }
  }

  lemma {:induction false} OneProcessIsOnTime(x: Texts, calls: seq<Call>)
    ensures AllOnTime(x, OneProcess(calls)) && NothingRead(Run(x, OneProcess(calls)))
  {
    if calls != [] {
      OneProcessIsOnTime(x, calls[..|calls| - 1]);
      OneCall(x, OneProcess(calls[..|calls| - 1]), calls[|calls| - 1]);
    }
  }

  /** In one process, in every reachable state and with no further condition, every metric's concepts and
      rules and every rule's concepts are confirmed. */
  lemma OneProcessStaysGrounded(x: Texts, calls: seq<Call>)
    ensures Grounded(CatalogOf(Run(x, OneProcess(calls))))
  {
    OneProcessIsOnTime(x, calls);
    DependenciesStayConfirmed(x, OneProcess(calls));
  }

  /******* What is checked *******/

  /** When the definition of a metric passes: it is automation's or a confirmed correction; its key, name,
      description, columns and the keys it names are sound; those are confirmed; and no other confirmed metric
      has a name with the tokens of a correction's. */
  lemma MetricCheckRule(x: Texts, w: World, client: Client, p: K.Proposal<Metric>)
    ensures var m, c := p.evidence.payload, CatalogOf(w);
            var passes := && (if p.mode.Supersede? then p.evidence.status == K.Confirmed
                              else p.evidence.status in {K.Imported, K.Inferred, K.Status.Unknown})
                          && LowerIdentifier(p.key) && !Blank(m.name) && |m.name| <= 300
                          && !Blank(m.description) && |m.description| <= 20_000
                          && m.refs != [] && Distinct(m.refs) && (forall r <- m.refs :: !Blank(r))
                          && m.grain != [] && Distinct(m.grain) && (forall r <- m.grain :: r in m.refs)
                          && Distinct(m.dimensions) && (forall r <- m.dimensions :: r in m.refs)
                          && Distinct(m.concepts)
                          && (forall k <- m.concepts :: LowerIdentifier(k) && K.Stands(c.concepts, k))
                          && Distinct(m.rules) && (forall k <- m.rules :: LowerIdentifier(k) && K.Stands(c.rules, k))
                          && (p.mode.Supersede? ==>
                                forall k <- c.metrics.resolutions :: k != p.key && K.Stands(c.metrics, k) ==>
                                  x.tokens(c.metrics.resolutions[k].payload.name) != x.tokens(m.name));
            Step(x, w, CheckMetric(client, p))
            == if passes then w.(checkedMetrics := w.checkedMetrics[client := p]) else w
  {
  }

  lemma RuleCheckRule(x: Texts, w: World, client: Client, p: K.Proposal<Rule>)
    ensures var r, c := p.evidence.payload, CatalogOf(w);
            var passes := && (if p.mode.Supersede? then p.evidence.status == K.Confirmed
                              else p.evidence.status in {K.Imported, K.Inferred, K.Status.Unknown})
                          && LowerIdentifier(p.key) && !Blank(r.name) && |r.name| <= 300
                          && !Blank(r.description) && |r.description| <= 20_000
                          && r.refs != [] && Distinct(r.refs) && (forall f <- r.refs :: !Blank(f))
                          && Distinct(r.concepts)
                          && (forall k <- r.concepts :: LowerIdentifier(k) && K.Stands(c.concepts, k))
                          && (p.mode.Supersede? ==>
                                forall k <- c.rules.resolutions :: k != p.key && K.Stands(c.rules, k) ==>
                                  x.tokens(c.rules.resolutions[k].payload.name) != x.tokens(r.name));
            Step(x, w, CheckRule(client, p)) == if passes then w.(checkedRules := w.checkedRules[client := p]) else w
  {
  }

  /** Definitions compare as the tuples of their fields, up to case in texts and order in lists. */
  lemma SameExactly(x: Texts, a: Metric, b: Metric, r: Rule, q: Rule)
    ensures SameMetric(x)(a, b)
            <==> (x.fold(a.name), x.fold(a.description), a.expression, multiset(a.refs), multiset(a.grain),
                  multiset(a.dimensions), multiset(a.concepts), multiset(a.rules), a.classification)
                 == (x.fold(b.name), x.fold(b.description), b.expression, multiset(b.refs), multiset(b.grain),
                     multiset(b.dimensions), multiset(b.concepts), multiset(b.rules), b.classification)
    ensures SameRule(x)(r, q)
            <==> (x.fold(r.name), x.fold(r.description), r.predicateSql, multiset(r.refs), multiset(r.concepts),
                  r.classification)
                 == (x.fold(q.name), x.fold(q.description), q.predicateSql, multiset(q.refs), multiset(q.concepts),
                     q.classification)
  {
  }

  /** No two confirmed keys have names with the same tokens. */
  ghost predicate NamesDiffer<P>(s: K.Store<P>, name: P -> Term) {
    forall a, b :: a != b && K.Stands(s, a) && K.Stands(s, b) ==>
                     name(s.resolutions[a].payload) != name(s.resolutions[b].payload)
  }

  /** An accepted write keeps confirmed names apart exactly when it is no correction, or its name is free in
      the state it writes to. */
  lemma CommitKeepsNamesExactly<P>(s: K.Store<P>, q: K.Pending<P>, same: (P, P) -> bool, name: P -> Term)
    requires NamesDiffer(s, name) && K.FromService(q.proposal) && K.Commit(s, q, same).Ok?
    ensures var p := q.proposal;
            NamesDiffer(K.Commit(s, q, same).value, name)
            <==> (p.mode.Supersede? ==>
                    forall k :: k != p.key && K.Stands(s, k) ==>
                                  name(s.resolutions[k].payload) != name(p.evidence.payload))
  {
    var p, t := q.proposal, K.Commit(s, q, same).value;
    forall k | k != p.key ensures K.Stands(t, k) <==> K.Stands(s, k) {
    }
    if p.mode.Supersede? {
      assert K.Stands(t, p.key) && t.resolutions[p.key].payload == p.evidence.payload;
      if NamesDiffer(t, name) {
        forall k | k != p.key && K.Stands(s, k) ensures name(s.resolutions[k].payload) != name(p.evidence.payload) {
          assert K.Stands(t, k) && t.resolutions[k] == s.resolutions[k];
        }
      }
    } else {
      assert K.Stands(t, p.key) ==> K.Stands(s, p.key) && t.resolutions[p.key] == s.resolutions[p.key];
    }
  }

  lemma OneGoKeepsNames<P>(w: K.World<P>, client: Client, p: K.Proposal<P>, same: (P, P) -> bool, name: P -> Term)
    requires w.pending == map[] && NamesDiffer(w.store, name) && p.mode.Supersede? && K.FromService(p)
    requires forall k :: k != p.key && K.Stands(w.store, k) ==>
                           name(w.store.resolutions[k].payload) != name(p.evidence.payload)
    ensures NamesDiffer(K.Advance(K.Advance(w, K.Read(client, p), same), K.Write(client), same).store, name)
  {
    var q := K.Pending(p, K.Current(w.store, p.key));
    if K.Commit(w.store, q, same).Ok? {
      CommitKeepsNamesExactly(w.store, q, same, name);
    }
  }

  function MetricName(x: Texts): Metric -> Term {
    (m: Metric) => x.tokens(m.name)
  }

  function RuleName(x: Texts): Rule -> Term {
    (r: Rule) => x.tokens(r.name)
  }

  /** A correction of a metric or rule that is checked, read and written in one go keeps names apart. */
  lemma CheckedCorrectionKeepsNames(x: Texts, w: World, client: Client, m: K.Proposal<Metric>, r: K.Proposal<Rule>)
    requires m.mode.Supersede? && r.mode.Supersede? && NothingRead(w)
    requires NamesDiffer(w.metrics.store, MetricName(x)) && NamesDiffer(w.rules.store, RuleName(x))
    ensures MetricAdmitted(x, CatalogOf(w), m) ==>
              NamesDiffer(Step(x, Step(x, Step(x, w, CheckMetric(client, m)), ReadMetric(client)), WriteMetric(client))
                            .metrics.store, MetricName(x))
    ensures RuleAdmitted(x, CatalogOf(w), r) ==>
              NamesDiffer(Step(x, Step(x, Step(x, w, CheckRule(client, r)), ReadRule(client)), WriteRule(client))
                            .rules.store, RuleName(x))
  {
    if MetricAdmitted(x, CatalogOf(w), m) {
      OneGoKeepsNames(w.metrics, client, m, SameMetric(x), MetricName(x));
    }
    if RuleAdmitted(x, CatalogOf(w), r) {
      OneGoKeepsNames(w.rules, client, r, SameRule(x), RuleName(x));
    }
  }

  /** What passes the checks is proposed: the three steps in one go do what one call of one process does to
      its table, and nothing to the others. */
  lemma OneGoIsPropose(x: Texts, w: World, client: Client, m: K.Proposal<Metric>, r: K.Proposal<Rule>)
    requires client !in w.metrics.pending && client !in w.rules.pending
    ensures MetricAdmitted(x, CatalogOf(w), m) ==>
              CatalogOf(Step(x, Step(x, Step(x, w, CheckMetric(client, m)), ReadMetric(client)), WriteMetric(client)))
              == CatalogOf(w).(metrics := K.Step(w.metrics.store, m, SameMetric(x)))
    ensures RuleAdmitted(x, CatalogOf(w), r) ==>
              CatalogOf(Step(x, Step(x, Step(x, w, CheckRule(client, r)), ReadRule(client)), WriteRule(client)))
              == CatalogOf(w).(rules := K.Step(w.rules.store, r, SameRule(x)))
  {
    K.ReadThenWriteIsPropose(w.metrics, client, m, SameMetric(x));
    K.ReadThenWriteIsPropose(w.rules, client, r, SameRule(x));
  }

  /******* Exactly when ground is lost *******/

  /** Some stored metric or rule names the key as a concept, or some metric as a rule. */
  predicate NamedConcept(c: Catalog, key: Key) {
    || (exists k <- c.metrics.resolutions :: key in c.metrics.resolutions[k].payload.concepts)
    || (exists k <- c.rules.resolutions :: key in c.rules.resolutions[k].payload.concepts)
  }

  predicate NamedRule(c: Catalog, key: Key) {
    exists k <- c.metrics.resolutions :: key in c.metrics.resolutions[k].payload.rules
  }

  lemma WriteConceptExactly(x: Texts, w: World, e: Event)
    requires Kept(w) && WritesConcept(w, e)
    ensures var key := w.concepts.records.pending[e.phase.client].proposal.key;
            Grounded(CatalogOf(Step(x, w, e)))
            <==> !(UnseatsConcept(x, w, e, key) && NamedConcept(CatalogOf(Step(x, w, e)), key))
  {
    var c, d := CatalogOf(w), CatalogOf(Step(x, w, e));
    var key := w.concepts.records.pending[e.phase.client].proposal.key;
    if UnseatsConcept(x, w, e, key) {
      ConceptStands(x, w, e, key);
      forall k | k != key && K.Stands(c.concepts, k) ensures K.Stands(d.concepts, k) {
        ConceptStands(x, w, e, k);
      }
    } else {
      QuietKeeps(x, w, e);
    }
  }

  lemma WriteRuleExactly(x: Texts, w: World, e: Event)
    requires Kept(w) && e.WriteRule? && e.client in w.rules.pending
    ensures var key := w.rules.pending[e.client].proposal.key;
            Grounded(CatalogOf(Step(x, w, e)))
            <==> !(UnseatsRule(x, w, e, key) && NamedRule(CatalogOf(Step(x, w, e)), key))
  {
    var c, d, key := CatalogOf(w), CatalogOf(Step(x, w, e)), w.rules.pending[e.client].proposal.key;
    if UnseatsRule(x, w, e, key) {
      RuleStands(x, w, e, key);
      forall k | k != key && K.Stands(c.rules, k) ensures K.Stands(d.rules, k) {
        RuleStands(x, w, e, k);
      }
      forall k | k in d.rules.resolutions ensures RuleGrounded(d, d.rules.resolutions[k].payload) {
        WrittenPayload(w.rules, K.Write(e.client), SameRule(x), k);
      }
    } else {
      QuietKeeps(x, w, e);
    }
  }

  /** The exact condition: from a grounded state one step leaves the catalog grounded if and only if it does
      not unseat a concept or rule that a stored metric or rule names. */
  lemma StepKeepsGroundedExactly(x: Texts, w: World, e: Event)
    requires Kept(w)
    ensures Grounded(CatalogOf(Step(x, w, e)))
            <==> && !(WritesConcept(w, e)
                      && var key := w.concepts.records.pending[e.phase.client].proposal.key;
                         UnseatsConcept(x, w, e, key) && NamedConcept(CatalogOf(Step(x, w, e)), key))
                 && !(e.WriteRule? && e.client in w.rules.pending
                      && var key := w.rules.pending[e.client].proposal.key;
                         UnseatsRule(x, w, e, key) && NamedRule(CatalogOf(Step(x, w, e)), key))
  {
    if WritesConcept(w, e) {
      WriteConceptExactly(x, w, e);
    } else if e.WriteRule? && e.client in w.rules.pending {
      WriteRuleExactly(x, w, e);
    } else {
      QuietKeeps(x, w, e);
    }
  }

  lemma Then(x: Texts, events: seq<Event>, e: Event) returns (longer: seq<Event>)
    ensures longer == events + [e] && Run(x, longer) == Step(x, Run(x, events), e)
  {
    longer := events + [e];
    assert longer[..|longer| - 1] == events;
  }

  /** A confirmed rule loses the concept it depends on: automation read the concept before it was confirmed,
      and writes after the rule was. */
  lemma GroundCanBeLost(
      x: Texts, known: set<string>, a: K.Proposal<Concept>, b: K.Proposal<Concept>, r: K.Proposal<Rule>,
      slow: Client, quick: Client)
    returns (events: seq<Event>)
    requires slow != quick && a.key == b.key && a.evidence.id != b.evidence.id
    requires K.FromService(a) && a.mode.Ordinary? && K.Sound(a.evidence)
    requires K.FromService(b) && b.mode == K.Supersede(None) && K.Sound(b.evidence)
    requires Checked(x, known, a.key, a.evidence.payload).None? && Checked(x, known, b.key, b.evidence.payload).None?
    requires K.FromService(r) && r.mode == K.Supersede(None) && K.Sound(r.evidence)
    requires RuleSound(r.key, r.evidence.payload) && r.evidence.payload.concepts == [a.key]
    ensures var before, after := CatalogOf(Run(x, events)),
        CatalogOf(Run(x, events + [ConceptPhase(WritePhase(slow))]));
            && Grounded(before) && K.Stands(before.concepts, a.key) && K.Stands(before.rules, r.key)
            && K.Stands(after.rules, r.key) && !K.Stands(after.concepts, a.key) && !Grounded(after)
  {
    events := ReadBeforeConfirmed(x, known, a, b, slow, quick);
    events := RuleWritten(x, events, r, quick);
    var longer := Then(x, events, ConceptPhase(WritePhase(slow)));
    var before, after := CatalogOf(Run(x, events)), CatalogOf(Run(x, longer));
    assert a.key in before.rules.resolutions[r.key].payload.concepts;
    assert after.rules == before.rules && !K.Stands(after.concepts, a.key);
  }

  lemma ReadBeforeConfirmed(
      x: Texts, known: set<string>, a: K.Proposal<Concept>, b: K.Proposal<Concept>, slow: Client, quick: Client)
    returns (events: seq<Event>)
    requires slow != quick && a.key == b.key && a.evidence.id != b.evidence.id
    requires K.FromService(a) && a.mode.Ordinary? && K.Sound(a.evidence)
    requires K.FromService(b) && b.mode == K.Supersede(None) && K.Sound(b.evidence)
    requires Checked(x, known, a.key, a.evidence.payload).None? && Checked(x, known, b.key, b.evidence.payload).None?
    ensures var w := Run(x, events);
            && w.rules == K.Start(K.Empty()) && w.metrics == K.Start(K.Empty())
            && K.Stands(w.concepts.records.store, a.key) && a.evidence.id !in w.concepts.records.store.evidence
            && slow in w.concepts.records.pending && w.concepts.records.pending[slow] == K.Pending(a, None)
  {
    events := Then(x, [], ConceptPhase(CheckPhase(slow, known, a)));
    events := Then(x, events, ConceptPhase(ReadPhase(slow)));
    assert Run(x, events).concepts == Replicas(K.World(K.Empty(), map[slow := K.Pending(a, None)]), map[]);
    events := Then(x, events, ConceptPhase(CheckPhase(quick, known, b)));
    events := Then(x, events, ConceptPhase(ReadPhase(quick)));
    assert Run(x, events).concepts.records.store == K.Empty();
    events := Then(x, events, ConceptPhase(WritePhase(quick)));
  }

  lemma RuleWritten(x: Texts, events: seq<Event>, r: K.Proposal<Rule>, client: Client) returns (longer: seq<Event>)
    requires var w := Run(x, events);
             && w.rules == K.Start(K.Empty()) && w.metrics == K.Start(K.Empty())
             && AllStand(w.concepts.records.store, r.evidence.payload.concepts)
    requires K.FromService(r) && r.mode == K.Supersede(None) && K.Sound(r.evidence)
    requires RuleSound(r.key, r.evidence.payload)
    ensures var w, u := Run(x, events), Run(x, longer);
            && u.concepts == w.concepts && u.metrics == w.metrics && K.Stands(u.rules.store, r.key)
            && u.rules.store.resolutions.Keys == {r.key}
            && u.rules.store.resolutions[r.key].payload == r.evidence.payload
  {
    longer := Then(x, events, CheckRule(client, r));
    longer := Then(x, longer, ReadRule(client));
    longer := Then(x, longer, WriteRule(client));
  }

  /******* Selecting for a query *******/

  datatype MetricMatch = MetricMatch(metric: Metric, terms: set<Term>)
  datatype RuleMatch = RuleMatch(rule: Rule, terms: set<Term>, selectedBy: set<Key>)
  datatype Context = Context(metrics: map<Key, MetricMatch>, rules: map<Key, RuleMatch>)

  function MatchedTerms(x: Texts, query: seq<Token>, name: string, key: Key): set<Term> {
    set t <- {x.tokens(name), x.tokens(Spoken(key))} | Matches(t, query)
  }

  predicate Touches(keys: seq<Key>, wanted: set<Key>) {
    exists k <- keys :: k in wanted
  }

  predicate MetricWanted(x: Texts, c: Catalog, query: seq<Token>, wanted: set<Key>, k: Key) {
    K.Stands(c.metrics, k)
    && var m := c.metrics.resolutions[k].payload;
       MatchedTerms(x, query, m.name, k) != {} || Touches(m.concepts, wanted)
  }

  /** The metrics among these that name the rule. */
  function Selectors(c: Catalog, metrics: set<Key>, rule: Key): set<Key> {
    set k <- metrics | K.Stands(c.metrics, k) && rule in c.metrics.resolutions[k].payload.rules
  }

  predicate RuleWanted(x: Texts, c: Catalog, query: seq<Token>, wanted: set<Key>, metrics: set<Key>, k: Key) {
    K.Stands(c.rules, k)
    && var r := c.rules.resolutions[k].payload;
       MatchedTerms(x, query, r.name, k) != {} || Selectors(c, metrics, k) != {} || Touches(r.concepts, wanted)
  }

  /** The query has the tokens of the name, or of the key read with spaces. */
  ghost predicate Asks(x: Texts, query: seq<Token>, name: string, key: Key) {
    || (x.tokens(name) != [] && Sublist(x.tokens(name), query))
    || (exists v :: Reads(v, key) && x.tokens(v) != [] && Sublist(x.tokens(v), query))
  }

  /** A term matches if and only if it is one of these two and its tokens stand next to each other in the
      query. */
  lemma MatchedTermsExactly(x: Texts, query: seq<Token>, name: string, key: Key)
    requires query != []
    ensures forall t :: t in MatchedTerms(x, query, name, key)
                        <==> && t != [] && Sublist(t, query)
                             && (t == x.tokens(name) || exists v :: Reads(v, key) && t == x.tokens(v))
    ensures MatchedTerms(x, query, name, key) != {} <==> Asks(x, query, name, key)
  {
    forall v ensures Reads(v, key) <==> v == Spoken(key) {
    }
    EmptyTermOrQuery(query);
    forall t: Term | t != [] ensures Matches(t, query) <==> Sublist(t, query) {
      MatchingIsTokenMatching(t, query);
    }
    if Asks(x, query, name, key) {
      var t := if x.tokens(name) != [] && Sublist(x.tokens(name), query) then x.tokens(name) else x.tokens(Spoken(key));
      assert t in MatchedTerms(x, query, name, key);
    }
  }

  /** Which metrics and rules a query selects: the confirmed ones it asks for by name or key, those of a
      wanted concept, and the rules that a selected metric names. */
  lemma WantedExactly(x: Texts, c: Catalog, query: seq<Token>, wanted: set<Key>, metrics: set<Key>, k: Key)
    requires query != []
    ensures MetricWanted(x, c, query, wanted, k)
            <==> && k in c.metrics.resolutions && c.metrics.resolutions[k].status == K.Confirmed
                 && var m := c.metrics.resolutions[k].payload;
                    Asks(x, query, m.name, k) || exists a <- m.concepts :: a in wanted
    ensures RuleWanted(x, c, query, wanted, metrics, k)
            <==> && k in c.rules.resolutions && c.rules.resolutions[k].status == K.Confirmed
                 && var r := c.rules.resolutions[k].payload;
                    || Asks(x, query, r.name, k) || (exists a <- r.concepts :: a in wanted)
                    || exists m <- metrics :: K.Stands(c.metrics, m) && k in c.metrics.resolutions[m].payload.rules
  {
    if K.Stands(c.metrics, k) {
      MatchedTermsExactly(x, query, c.metrics.resolutions[k].payload.name, k);
    }
    if K.Stands(c.rules, k) {
      MatchedTermsExactly(x, query, c.rules.resolutions[k].payload.name, k);
      if m :| m in metrics && K.Stands(c.metrics, m) && k in c.metrics.resolutions[m].payload.rules {
        assert m in Selectors(c, metrics, k);
      }
    }
  }

  ghost predicate MetricsSelected(x: Texts, c: Catalog, query: seq<Token>, wanted: set<Key>, among: set<Key>,
      ms: map<Key, MetricMatch>)
  {
    && (forall k :: k in ms <==> k in among && MetricWanted(x, c, query, wanted, k))
    && (forall k <- ms :: K.Stands(c.metrics, k)
                          && var m := c.metrics.resolutions[k].payload;
                             ms[k] == MetricMatch(m, MatchedTerms(x, query, m.name, k)))
  }

  ghost predicate RulesSelected(x: Texts, c: Catalog, query: seq<Token>, wanted: set<Key>, metrics: set<Key>,
      among: set<Key>,
                                rs: map<Key, RuleMatch>) {
    && (forall k :: k in rs <==> k in among && RuleWanted(x, c, query, wanted, metrics, k))
    && (forall k <- rs :: K.Stands(c.rules, k)
                          && var r := c.rules.resolutions[k].payload;
                             rs[k] == RuleMatch(r, MatchedTerms(x, query, r.name, k), Selectors(c, metrics, k)))
  }

  /** Every rule a selected metric names is selected with it, and says which metrics selected it. */
  predicate Closed(context: Context) {
    forall m <- context.metrics :: forall r <- context.metrics[m].metric.rules ::
      r in context.rules && m in context.rules[r].selectedBy
  }

  method SelectMetrics(x: Texts, c: Catalog, query: seq<Token>, wanted: set<Key>) returns (ms: map<Key, MetricMatch>)
    ensures MetricsSelected(x, c, query, wanted, c.metrics.resolutions.Keys, ms)
  {
    ms := map[];
    var left := c.metrics.resolutions.Keys;
    while left != {}
      invariant left <= c.metrics.resolutions.Keys
      invariant MetricsSelected(x, c, query, wanted, c.metrics.resolutions.Keys - left, ms)
      decreases |left|
    {
      var k :| k in left;
      left := left - {k};
      if c.metrics.resolutions[k].status == K.Confirmed {
        var m := c.metrics.resolutions[k].payload;
        var terms := MatchedTerms(x, query, m.name, k);
        if terms != {} || Touches(m.concepts, wanted) {
          ms := ms[k := MetricMatch(m, terms)];
        }
      }
    }
  }

  function At(selectors: map<Key, set<Key>>, rule: Key): set<Key> {
    if rule in selectors then selectors[rule] else {}
  }

  method AddSelector(selectors: map<Key, set<Key>>, rules: seq<Key>, metric: Key) returns (more: map<Key, set<Key>>)
    ensures forall r :: At(more, r) == At(selectors, r) + if r in rules then {metric} else {}
  {
    more := selectors;
    for i := 0 to |rules|
      invariant forall r :: At(more, r) == At(selectors, r) + if r in rules[..i] then {metric} else {}
    {
      more := more[rules[i] := At(more, rules[i]) + {metric}];
    }
    assert rules[..|rules|] == rules;
  }

  /** For every rule, the selected metrics that name it. */
  method SelectedByRule(c: Catalog, ms: map<Key, MetricMatch>) returns (selectors: map<Key, set<Key>>)
    requires forall m <- ms :: K.Stands(c.metrics, m) && ms[m].metric == c.metrics.resolutions[m].payload
    ensures forall r :: At(selectors, r) == Selectors(c, ms.Keys, r)
  {
    selectors := map[];
    var left := ms.Keys;
    while left != {}
      invariant left <= ms.Keys
      invariant forall r :: At(selectors, r) == Selectors(c, ms.Keys - left, r)
      decreases |left|
    {
      var m :| m in left;
      assert ms.Keys - (left - {m}) == ms.Keys - left + {m};
      forall r ensures Selectors(c, ms.Keys - left + {m}, r)
                       == Selectors(c, ms.Keys - left, r) + if r in ms[m].metric.rules then {m} else {}
      {
      }
      selectors := AddSelector(selectors, ms[m].metric.rules, m);
      left := left - {m};
    }
    assert ms.Keys - left == ms.Keys;
  }

  /** The metrics and rules for a query. When the catalog is grounded the selection is closed under
      dependency. */
  method ResolveForQuery(x: Texts, c: Catalog, query: string, wanted: set<Key>) returns (context: Context)
    ensures MetricsSelected(x, c, x.tokens(query), wanted, c.metrics.resolutions.Keys, context.metrics)
    ensures RulesSelected(x, c, x.tokens(query), wanted, context.metrics.Keys, c.rules.resolutions.Keys, context.rules)
    ensures Grounded(c) ==> Closed(context)
  {
    var tokens := x.tokens(query);
    var ms := SelectMetrics(x, c, tokens, wanted);
    var selectors := SelectedByRule(c, ms);
    var rs: map<Key, RuleMatch> := map[];
    var left := c.rules.resolutions.Keys;
    while left != {}
      invariant left <= c.rules.resolutions.Keys
      invariant RulesSelected(x, c, tokens, wanted, ms.Keys, c.rules.resolutions.Keys - left, rs)
      decreases |left|
    {
      var k :| k in left;
      left := left - {k};
      if c.rules.resolutions[k].status == K.Confirmed {
        var r := c.rules.resolutions[k].payload;
        var terms := MatchedTerms(x, tokens, r.name, k);
        var selectedBy := At(selectors, k);
        if terms != {} || selectedBy != {} || Touches(r.concepts, wanted) {
          rs := rs[k := RuleMatch(r, terms, selectedBy)];
        }
      }
    }
    context := Context(ms, rs);
    if Grounded(c) {
      SelectionIsClosed(x, c, tokens, wanted, context);
    }
  }

  lemma SelectionIsClosed(x: Texts, c: Catalog, query: seq<Token>, wanted: set<Key>, context: Context)
    requires Grounded(c)
    requires MetricsSelected(x, c, query, wanted, c.metrics.resolutions.Keys, context.metrics)
    requires RulesSelected(x, c, query, wanted, context.metrics.Keys, c.rules.resolutions.Keys, context.rules)
    ensures Closed(context)
  {
    forall m, r | m in context.metrics && r in context.metrics[m].metric.rules
      ensures r in context.rules && m in context.rules[r].selectedBy
    {
      assert MetricGrounded(c, c.metrics.resolutions[m].payload);
      assert K.Stands(c.rules, r);
      assert m in Selectors(c, context.metrics.Keys, r);
    }
  }

  /** The selection is closed in every state reached while writes are on time. */
  lemma ReachableSelectionIsClosed(
      x: Texts, events: seq<Event>, query: seq<Token>, wanted: set<Key>, context: Context)
    requires AllOnTime(x, events)
    requires var c := CatalogOf(Run(x, events));
             && MetricsSelected(x, c, query, wanted, c.metrics.resolutions.Keys, context.metrics)
             && RulesSelected(x, c, query, wanted, context.metrics.Keys, c.rules.resolutions.Keys, context.rules)
    ensures Closed(context)
  {
    DependenciesStayConfirmed(x, events);
    SelectionIsClosed(x, CatalogOf(Run(x, events)), query, wanted, context);
  }

  /** The selection is closed in every reachable state of one process. */
  lemma OneProcessSelectionIsClosed(
      x: Texts, calls: seq<Call>, query: seq<Token>, wanted: set<Key>, context: Context)
    requires var c := CatalogOf(Run(x, OneProcess(calls)));
             && MetricsSelected(x, c, query, wanted, c.metrics.resolutions.Keys, context.metrics)
             && RulesSelected(x, c, query, wanted, context.metrics.Keys, c.rules.resolutions.Keys, context.rules)
    ensures Closed(context)
  {
    OneProcessIsOnTime(x, calls);
    ReachableSelectionIsClosed(x, OneProcess(calls), query, wanted, context);
  }
}
