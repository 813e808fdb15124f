/**
 Approval of a query request under optimistic revisions.

 A transition reads the request's row, decides from what it read, and writes with a compare-and-set
 on state and EXPLAIN revision. One process makes the pair atomic; several processes sharing one
 database do not. Both are modelled: Transition is the pair as one step, a World keeps each client's
 row from its read until its write.
 */
module QueryApproval {
  import opened Wrappers
  import opened QueryState
  import opened Text

  type Id = string
  type Source = string
  type Client = string
  type Digest = string

  datatype Row = Row(
    source: Source,
    state: State,
    explainRevision: nat,
    explained: bool,
    explainedSqlHash: Option<Digest>,
    parameterHash: Option<Digest>,
    approvedBy: Option<string>,
    approvedExplainRevision: Option<nat>,
    approvedPolicyRevision: Option<nat>,
    approvedSqlHash: Option<Digest>,
    approvedParameterHash: Option<Digest>)

  datatype Explain = Explain(sqlHash: Digest, parameterHash: Option<Digest>)

  datatype Catalog = Catalog(
    requests: map<Id, Row>,
    policies: map<Source, nat>,
    explains: map<(Id, nat), Explain>)

  /** The arguments of one call of transition_query_request. */
  datatype Call = Call(
    target: State,
    actor: Option<string>,
    expectedExplain: Option<nat>,
    expectedPolicy: Option<nat>,
    sqlHash: Option<Digest>,
    parameterHash: Option<Digest>)

  datatype Error = NotFound | Conflict | PolicyChanged | InvalidTransition | BadCall

  function PolicyRevision(c: Catalog, source: Source): nat {
    if source in c.policies then c.policies[source] else 0
  }

  /******* Operations *******/

  function NewRow(source: Source, state: State): Row {
    Row(source, state, 0, false, None, None, None, None, None, None, None)
  }

  /** What the row read and the arguments decide, before the database is written. */
  function Decide(read: Row, call: Call): Result<Row, Error> {
    if call.expectedExplain.Some? && read.explainRevision != call.expectedExplain.value then Err(Conflict)
    else if call.target == Approved && read.state != ReadyForPreview then Err(Conflict)
    else if !CanMove(read.state, call.target) then Err(InvalidTransition)
    else if call.target == Approved then
      if call.actor.None? || Blank(call.actor.value) then Err(BadCall)
      else if call.expectedExplain.None? || call.sqlHash.None? || call.sqlHash.value == "" then Err(BadCall)
      else if read.explained && (read.explainedSqlHash != call.sqlHash || read.parameterHash != call.parameterHash)
      then Err(Conflict)
      else if call.expectedPolicy.None? then Err(BadCall)
      else Ok(read.(state := Approved, approvedBy := Some(Strip(call.actor.value)),
                    approvedExplainRevision := Some(read.explainRevision),
                    approvedPolicyRevision := call.expectedPolicy, approvedSqlHash := call.sqlHash,
                    approvedParameterHash := call.parameterHash))
    else if call.actor.Some? || call.sqlHash.Some? then Err(BadCall)
    else if call.target == ReadyForPreview then
      Ok(read.(state := ReadyForPreview, approvedBy := None, approvedExplainRevision := None,
               approvedPolicyRevision := None, approvedSqlHash := None, approvedParameterHash := None))
    else Ok(read.(state := call.target))
  }

  /** The checks made while the cost policy of the source is locked. */
  function PolicyCheck(revision: nat, read: Row, call: Call): Option<Error> {
    if call.target == ReadyForPreview && read.state == Approved then
      if read.approvedPolicyRevision == Some(revision) then Some(Conflict) else None
    else if call.target == Approved || call.target == Executing then
      if call.expectedPolicy != Some(revision)
         || (call.target == Executing && read.approvedPolicyRevision != Some(revision))
      then Some(PolicyChanged) else None
    else None
  }

  /** The columns a transition writes; the others keep their stored value. */
  function Written(stored: Row, decided: Row): Row {
    stored.(state := decided.state, approvedBy := decided.approvedBy,
            approvedExplainRevision := decided.approvedExplainRevision,
            approvedPolicyRevision := decided.approvedPolicyRevision,
            approvedSqlHash := decided.approvedSqlHash,
            approvedParameterHash := decided.approvedParameterHash)
  }

  /** Write from a row read earlier. */
  function Commit(c: Catalog, id: Id, read: Row, call: Call): Result<Catalog, Error>
    requires id in c.requests
  {
    var decided := Decide(read, call);
    if decided.Err? then Err(decided.error)
    else
      var refused := PolicyCheck(PolicyRevision(c, read.source), read, call);
      var stored := c.requests[id];
      if refused.Some? then Err(refused.value)
      else if stored.state != read.state || stored.explainRevision != read.explainRevision then Err(Conflict)
      else Ok(c.(requests := c.requests[id := Written(stored, decided.value)]))
  }

  /** Read and write as one step. */
  function Transition(c: Catalog, id: Id, call: Call): Result<Catalog, Error> {
    if id !in c.requests then Err(NotFound) else Commit(c, id, c.requests[id], call)
  }

  function RecordExplain(c: Catalog, id: Id, expected: nat, e: Explain): Result<Catalog, Error> {
    if id !in c.requests then Err(NotFound)
    else
      var stored := c.requests[id];
      if stored.state != ReadyForPreview || stored.explainRevision != expected then Err(Conflict)
      else if (id, expected + 1) in c.explains then Err(Conflict)
      else
        Ok(c.(requests := c.requests[id := stored.(explainRevision := expected + 1, explained := true,
                                                  explainedSqlHash := Some(e.sqlHash),
                                                  parameterHash := e.parameterHash)],
              explains := c.explains[(id, expected + 1) := e]))
  }

  function UpsertPolicy(c: Catalog, source: Source): Catalog {
    c.(policies := c.policies[source := PolicyRevision(c, source) + 1])
  }

  predicate Creatable(s: State) {
    s == NeedsClarification || s == ReadyForPreview || s == Rejected
  }

  function CreateRequest(c: Catalog, id: Id, source: Source, state: State): Catalog {
    if id in c.requests || !Creatable(state) then c
    else c.(requests := c.requests[id := NewRow(source, state)])
  }

  /******* Several clients, reading and writing in any order *******/

  datatype Pending = Pending(id: Id, read: Row, call: Call)

  datatype World = World(catalog: Catalog, pending: map<Client, Pending>)

  datatype Event =
    | Create(id: Id, source: Source, state: State)
    | Read(client: Client, id: Id, call: Call)
    | Write(client: Client)
    | Explains(id: Id, expected: nat, e: Explain)
    | Policy(source: Source)

  function Settle(c: Catalog, r: Result<Catalog, Error>): Catalog {
    if r.Ok? then r.value else c
  }

  function Step(w: World, e: Event): World {
    match e
    case Create(id, source, state) => w.(catalog := CreateRequest(w.catalog, id, source, state))
    case Read(client, id, call) =>
      if id !in w.catalog.requests then w
      else w.(pending := w.pending[client := Pending(id, w.catalog.requests[id], call)])
    case Write(client) =>
      if client !in w.pending then w
      else
        var p := w.pending[client];
        if p.id !in w.catalog.requests then w
        else World(Settle(w.catalog, Commit(w.catalog, p.id, p.read, p.call)), w.pending - {client})
    case Explains(id, expected, x) => w.(catalog := Settle(w.catalog, RecordExplain(w.catalog, id, expected, x)))
    case Policy(source) => w.(catalog := UpsertPolicy(w.catalog, source))
  }

  const EMPTY := World(Catalog(map[], map[], map[]), map[])

  function Run(events: seq<Event>): World {
    if events == [] then EMPTY else Step(Run(events[..|events| - 1]), events[|events| - 1])
  }

  /******* What every run keeps *******/

  predicate ExplainKept(c: Catalog, id: Id, r: Row) {
    && (r.explained <==> r.explainRevision > 0)
    && (r.explained ==>
          && (id, r.explainRevision) in c.explains
          && var e := c.explains[(id, r.explainRevision)];
             r.explainedSqlHash == Some(e.sqlHash) && r.parameterHash == e.parameterHash)
  }

  predicate ApprovalBound(c: Catalog, r: Row) {
    && r.approvedExplainRevision == Some(r.explainRevision)
    && r.approvedBy.Some? && r.approvedSqlHash.Some?
    && r.approvedPolicyRevision.Some? && r.approvedPolicyRevision.value <= PolicyRevision(c, r.source)
    && (r.explained ==> r.approvedSqlHash == r.explainedSqlHash && r.approvedParameterHash == r.parameterHash)
  }

  predicate RowKept(c: Catalog, id: Id, r: Row) {
    ExplainKept(c, id, r) && (r.state == Approved ==> ApprovalBound(c, r))
  }

  /** A row some client still holds: it may be behind the stored one, but only by whole revisions. */
  predicate ReadKept(c: Catalog, p: Pending) {
    && p.id in c.requests
    && p.read.source == c.requests[p.id].source
    && RowKept(c, p.id, p.read)
    && p.read.explainRevision <= c.requests[p.id].explainRevision
  }

  predicate ExplainsKept(c: Catalog) {
    forall k <- c.explains :: k.0 in c.requests && k.1 <= c.requests[k.0].explainRevision
  }

  predicate CatalogKept(c: Catalog) {
    && (forall id <- c.requests :: RowKept(c, id, c.requests[id]))
    && ExplainsKept(c)
  }

  predicate Kept(w: World) {
    && CatalogKept(w.catalog)
    && forall k <- w.pending :: ReadKept(w.catalog, w.pending[k])
  }

  /** From c to d nothing recorded is lost: rows stay, sources stay, revisions and policies only grow. */
  ghost predicate Grows(c: Catalog, d: Catalog) {
    && (forall id <- c.requests :: id in d.requests && d.requests[id].source == c.requests[id].source
                                   && c.requests[id].explainRevision <= d.requests[id].explainRevision)
    && (forall s :: PolicyRevision(c, s) <= PolicyRevision(d, s))
    && (forall k <- c.explains :: k in d.explains && d.explains[k] == c.explains[k])
  }

  lemma ReadsSurvive(c: Catalog, d: Catalog, p: Pending)
    requires Grows(c, d) && ReadKept(c, p)
    ensures ReadKept(d, p)
  {
  }

  lemma CommitKeeps(c: Catalog, p: Pending)
    requires CatalogKept(c) && ReadKept(c, p)
    ensures var d := Settle(c, Commit(c, p.id, p.read, p.call)); CatalogKept(d) && Grows(c, d)
  {
    var r := Commit(c, p.id, p.read, p.call);
    if r.Ok? {
      assert ExplainKept(c, p.id, c.requests[p.id]) && ExplainKept(c, p.id, p.read);
      assert RowKept(r.value, p.id, r.value.requests[p.id]);
    }
  }

  lemma ExplainRecorded(c: Catalog, id: Id, expected: nat, e: Explain)
    requires CatalogKept(c) && RecordExplain(c, id, expected, e).Ok?
    ensures RowKept(RecordExplain(c, id, expected, e).value, id, RecordExplain(c, id, expected, e).value.requests[id])
    ensures Grows(c, RecordExplain(c, id, expected, e).value)
  {
  }

  lemma ExplainKeeps(c: Catalog, id: Id, expected: nat, e: Explain)
    requires CatalogKept(c)
    ensures var d := Settle(c, RecordExplain(c, id, expected, e)); CatalogKept(d) && Grows(c, d)
  {
    var r := RecordExplain(c, id, expected, e);
    if r.Ok? {
      ExplainRecorded(c, id, expected, e);
      var d := r.value;
      forall k | k in d.requests ensures RowKept(d, k, d.requests[k]) {
        if k != id {
          assert RowKept(c, k, c.requests[k]);
        }
      }
    }
  }

  lemma StepGrows(w: World, e: Event)
    requires Kept(w)
    ensures CatalogKept(Step(w, e).catalog) && Grows(w.catalog, Step(w, e).catalog)
  {
    match e
    case Create(_, _, _) =>
    case Read(_, _, _) =>
    case Write(client) =>
      if client in w.pending {
        CommitKeeps(w.catalog, w.pending[client]);
      }
    case Explains(id, expected, x) => ExplainKeeps(w.catalog, id, expected, x);
    case Policy(_) =>
  }

  lemma StepKeeps(w: World, e: Event)
    requires Kept(w)
    ensures Kept(Step(w, e)) && Grows(w.catalog, Step(w, e).catalog)
  {
    StepGrows(w, e);
    var d := Step(w, e).catalog;
    forall k | k in Step(w, e).pending ensures ReadKept(d, Step(w, e).pending[k]) {
      if k in w.pending && Step(w, e).pending[k] == w.pending[k] {
        ReadsSurvive(w.catalog, d, w.pending[k]);
      }
    }
  }

  lemma {:induction false} RunKeeps(events: seq<Event>)
    ensures Kept(Run(events))
    ensures events != [] ==> Grows(Run(events[..|events| - 1]).catalog, Run(events).catalog)
  {
    if events != [] {
      RunKeeps(events[..|events| - 1]);
      StepKeeps(Run(events[..|events| - 1]), events[|events| - 1]);
    }
  }

  /******* Approval integrity *******/

  predicate Integrity(c: Catalog, id: Id)
    requires id in c.requests
  {
    var r := c.requests[id];
    && r.approvedExplainRevision == Some(r.explainRevision)
    && r.approvedPolicyRevision == Some(PolicyRevision(c, r.source))
    && r.approvedBy.Some? && r.approvedSqlHash.Some?
    && (r.explainRevision > 0 ==>
          && (id, r.explainRevision) in c.explains
          && var e := c.explains[(id, r.explainRevision)];
             r.approvedSqlHash == Some(e.sqlHash) && r.approvedParameterHash == e.parameterHash)
  }

  predicate Enters(c: Catalog, d: Catalog, id: Id) {
    id in d.requests && d.requests[id].state == Executing && (id !in c.requests || c.requests[id].state != Executing)
  }

  lemma CommitEntersWithIntegrity(c: Catalog, p: Pending, id: Id)
    requires CatalogKept(c) && ReadKept(c, p)
    requires Enters(c, Settle(c, Commit(c, p.id, p.read, p.call)), id)
    ensures Integrity(Settle(c, Commit(c, p.id, p.read, p.call)), id)
  {
    assert id == p.id;
    assert p.read.state == Approved;
    assert ApprovalBound(c, p.read) && ExplainKept(c, id, c.requests[id]);
  }

  /**
   Approval integrity under interleaving: after any events of any clients, a request that the next
   event moves into EXECUTING is approved for its current EXPLAIN revision, for exactly the SQL and
   bindings that revision explained, and under the cost policy in force.
   */
  lemma ApprovalIntegrity(events: seq<Event>, e: Event, id: Id)
    ensures var c, d := Run(events).catalog, Step(Run(events), e).catalog;
            Enters(c, d, id) ==> Integrity(d, id)
  {
    RunKeeps(events);
    var w := Run(events);
    if Enters(w.catalog, Step(w, e).catalog, id) {
      match e
      case Write(client) => CommitEntersWithIntegrity(w.catalog, w.pending[client], id);
      case _ => assert false;
    }
  }

  /******* Executing at most once *******/

  /** How many events of the run move the request into EXECUTING. */
  function Entries(events: seq<Event>, id: Id): nat {
    if events == [] then 0
    else
      var before := events[..|events| - 1];
      Entries(before, id) + if Enters(Run(before).catalog, Run(events).catalog, id) then 1 else 0
  }

  lemma StepAfterExecution(w: World, e: Event, id: Id)
    requires Kept(w) && id in w.catalog.requests && HasExecuted(w.catalog.requests[id].state)
    ensures id in Step(w, e).catalog.requests && HasExecuted(Step(w, e).catalog.requests[id].state)
    ensures !Enters(w.catalog, Step(w, e).catalog, id)
  {
    if e.Write? && e.client in w.pending && w.pending[e.client].id == id {
      var p := w.pending[e.client];
      if Commit(w.catalog, id, p.read, p.call).Ok? {
        MoveAfterExecution(p.read.state, p.call.target);
      }
    }
  }

  lemma {:induction false} ExecutesAtMostOnce(events: seq<Event>, id: Id)
    ensures Entries(events, id) <= 1
    ensures Entries(events, id) == 1 ==>
              id in Run(events).catalog.requests && HasExecuted(Run(events).catalog.requests[id].state)
  {
    if events != [] {
      var before := events[..|events| - 1];
      ExecutesAtMostOnce(before, id);
      RunKeeps(before);
      if Entries(before, id) == 1 {
        StepAfterExecution(Run(before), events[|events| - 1], id);
      }
    }
  }

  /******* The approval after execution began *******/

  predicate Begun(s: State) {
    s == Executing || s == Succeeded || s == ResultProcessing
  }

  /** Rows read while a request was under way hold the approval it is under way with. */
  predicate ReadsAgree(w: World) {
    forall k <- w.pending :: ReadAgrees(w.catalog, w.pending[k])
  }

  predicate ReadAgrees(c: Catalog, p: Pending) {
    Begun(p.read.state) ==>
      && p.id in c.requests && HasExecuted(c.requests[p.id].state)
      && p.read.(state := c.requests[p.id].state) == c.requests[p.id]
  }

  /** The row a catalog had once execution began is the row it has later, but for its state. */
  predicate Continues(c: Catalog, d: Catalog, id: Id)
    requires id in c.requests
  {
    HasExecuted(c.requests[id].state) ==>
      && id in d.requests && HasExecuted(d.requests[id].state)
      && d.requests[id] == c.requests[id].(state := d.requests[id].state)
  }

  lemma StepContinues(w: World, e: Event, id: Id)
    requires ReadsAgree(w) && id in w.catalog.requests
    ensures Continues(w.catalog, Step(w, e).catalog, id)
  {
    if e.Write? && e.client in w.pending && w.pending[e.client].id == id {
      var p := w.pending[e.client];
      assert ReadAgrees(w.catalog, p);
      if Commit(w.catalog, id, p.read, p.call).Ok? && HasExecuted(w.catalog.requests[id].state) {
        MoveAfterExecution(p.read.state, p.call.target);
      }
    }
  }

  lemma StepAgrees(w: World, e: Event)
    requires ReadsAgree(w)
    ensures ReadsAgree(Step(w, e))
  {
    var v := Step(w, e);
    forall k | k in v.pending ensures ReadAgrees(v.catalog, v.pending[k]) {
      var p := v.pending[k];
      if Begun(p.read.state) && k in w.pending && w.pending[k] == p {
        assert ReadAgrees(w.catalog, p);
        StepContinues(w, e, p.id);
      }
    }
  }

  lemma {:induction false} RunAgrees(events: seq<Event>)
    ensures ReadsAgree(Run(events))
  {
    if events != [] {
      RunAgrees(events[..|events| - 1]);
      StepAgrees(Run(events[..|events| - 1]), events[|events| - 1]);
    }
  }

  lemma {:induction false} RunContinues(events: seq<Event>, more: seq<Event>, id: Id)
    requires id in Run(events).catalog.requests
    ensures id in Run(events + more).catalog.requests
    ensures Continues(Run(events).catalog, Run(events + more).catalog, id)
    decreases |more|
  {
    if more == [] {
      assert events + more == events;
    } else {
      var before, e := more[..|more| - 1], more[|more| - 1];
      RunContinues(events, before, id);
      RunAgrees(events + before);
      var w;
      var longer;
      w, longer := Then(events + before, e);
      assert longer == events + more;
      RunKeeps(longer);
      assert longer[..|longer| - 1] == events + before;
      StepContinues(Run(events + before), e, id);
    }
  }

  /**
   Whatever clients do after a request entered EXECUTING, its row keeps everything but its state, and what
   it was approved for is still what its EXPLAIN recorded.
   */
  lemma ExecutionKeepsApproval(events: seq<Event>, e: Event, more: seq<Event>, id: Id)
    requires Enters(Run(events).catalog, Run(events + [e]).catalog, id)
    ensures var was, c := Run(events + [e]).catalog, Run(events + [e] + more).catalog;
            && id in c.requests && HasExecuted(c.requests[id].state)
            && c.requests[id] == was.requests[id].(state := c.requests[id].state)
            && c.requests[id].approvedBy.Some?
            && c.requests[id].approvedExplainRevision == Some(c.requests[id].explainRevision)
            && (c.requests[id].explainRevision > 0 ==>
                  && (id, c.requests[id].explainRevision) in c.explains
                  && var x := c.explains[(id, c.requests[id].explainRevision)];
                     && c.requests[id].approvedSqlHash == Some(x.sqlHash)
                     && c.requests[id].approvedParameterHash == x.parameterHash)
  {
    var w, longer := Then(events, e);
    ApprovalIntegrity(events, e, id);
    RunContinues(longer, more, id);
    RunKeeps(longer + more);
    assert RowKept(Run(longer + more).catalog, id, Run(longer + more).catalog.requests[id]);
    RunKeeps(longer);
    assert RowKept(w.catalog, id, w.catalog.requests[id]);
  }

  /******* Reopening a fresh approval *******/

  function ReopenCall(): Call {
    Call(ReadyForPreview, None, None, None, None, None)
  }

  /** Without the single process, a client that read a stale approval can undo a fresh one. */
  lemma FreshApprovalCanBeReopened(id: Id, source: Source, slow: Client, quick: Client)
      returns (events: seq<Event>, e: Event)
    requires slow != quick
    ensures var c, d := Run(events).catalog, Step(Run(events), e).catalog;
            && id in c.requests && c.requests[id].state == Approved && c.requests[id].source == source
            && c.requests[id].approvedPolicyRevision == Some(PolicyRevision(c, source))
            && id in d.requests && d.requests[id].state == ReadyForPreview
  {
    var w := EMPTY;
    events := [];
    ApproverIsNamed();
    w, events := Then(events, Create(id, source, ReadyForPreview));
    w, events := Then(events, Read(quick, id, FirstApproval(0)));
    w, events := Then(events, Write(quick));
    w, events := Then(events, Read(slow, id, ReopenCall()));
    assert w.catalog == CreateRequest(EMPTY.catalog, id, source, ReadyForPreview).(requests := w.catalog.requests);
    events := Reapproved(events, w, id, source, slow, quick);
    e := Write(slow);
  }

  /** Exactly when an interleaved reopening undoes an approval of the policy in force: the client read an
      approval of another policy revision at the same explain revision, and its call names no approver, no
      digest and no other explain revision. */
  lemma FreshApprovalIsUndoneExactly(w: World, client: Client)
    requires Kept(w) && client in w.pending
    requires var p := w.pending[client];
             p.call.target == ReadyForPreview && w.catalog.requests[p.id].state == Approved
    ensures var p, d := w.pending[client], Step(w, Write(client)).catalog;
            var r, revision := w.catalog.requests[p.id], PolicyRevision(w.catalog, w.catalog.requests[p.id].source);
            d.requests[p.id].state == ReadyForPreview && r.approvedPolicyRevision == Some(revision)
            <==> && p.read.state == Approved && p.read.explainRevision == r.explainRevision
                 && p.read.approvedPolicyRevision != r.approvedPolicyRevision == Some(revision)
                 && p.call.actor.None? && p.call.sqlHash.None?
                 && (p.call.expectedExplain.Some? ==> p.call.expectedExplain.value == p.read.explainRevision)
  {
    var p := w.pending[client];
    assert ReadKept(w.catalog, p);
    assert RowKept(w.catalog, p.id, w.catalog.requests[p.id]);
  }

  lemma ApproverIsNamed()
    ensures !Blank("approver")
  {
    assert 'a' in "approver" by {
      assert "approver"[0] == 'a';
    }
    assert !IsSpace('a');
  }

  function FirstApproval(revision: nat): Call {
    Call(Approved, Some("approver"), Some(0), Some(revision), Some("digest"), None)
  }

  /** The policy changes, and another client reopens the request and approves it again. */
  lemma Reapproved(events: seq<Event>, was: World, id: Id, source: Source, slow: Client, quick: Client)
    returns (longer: seq<Event>)
    requires was == Run(events) && slow != quick && id in was.catalog.requests && source !in was.catalog.policies
    requires was.catalog.requests[id] == NewRow(source, Approved).(approvedBy := Some(Strip("approver")),
               approvedExplainRevision := Some(0), approvedPolicyRevision := Some(0), approvedSqlHash := Some("digest"))
    ensures var w := Run(longer);
            && id in w.catalog.requests && w.catalog.requests[id].state == Approved
            && w.catalog.requests[id].source == source && w.catalog.requests[id].explainRevision == 0
            && PolicyRevision(w.catalog, source) == 1 && w.catalog.requests[id].approvedPolicyRevision == Some(1)
            && (slow in was.pending ==> slow in w.pending && w.pending[slow] == was.pending[slow])
  {
    longer := ReopenedByPolicy(events, was, id, source, quick);
    var w := Run(longer);
    assert slow in was.pending ==> slow in w.pending && w.pending[slow] == was.pending[slow];
    ApprovedByReading(w, id, source, quick);
    w, longer := Then(longer, Read(quick, id, FirstApproval(1)));
    w, longer := Then(longer, Write(quick));
  }

  lemma ApprovedByReading(w: World, id: Id, source: Source, quick: Client)
    requires id in w.catalog.requests && w.catalog.requests[id] == NewRow(source, ReadyForPreview)
    requires PolicyRevision(w.catalog, source) == 1
    ensures var v := Step(Step(w, Read(quick, id, FirstApproval(1))), Write(quick));
            && id in v.catalog.requests && v.catalog.requests[id].state == Approved
            && v.catalog.requests[id].source == source && v.catalog.requests[id].explainRevision == 0
            && v.catalog.requests[id].approvedPolicyRevision == Some(1)
            && v.catalog.policies == w.catalog.policies
            && forall c <- w.pending :: c != quick ==> c in v.pending && v.pending[c] == w.pending[c]
  {
    ApproverIsNamed();
  }

  lemma ReopenedByPolicy(events: seq<Event>, was: World, id: Id, source: Source, quick: Client)
      returns (longer: seq<Event>)
    requires was == Run(events) && id in was.catalog.requests && source !in was.catalog.policies
    requires was.catalog.requests[id] == NewRow(source, Approved).(approvedBy := Some(Strip("approver")),
               approvedExplainRevision := Some(0), approvedPolicyRevision := Some(0), approvedSqlHash := Some("digest"))
    ensures var w := Run(longer);
            && id in w.catalog.requests && w.catalog.requests[id] == NewRow(source, ReadyForPreview)
            && PolicyRevision(w.catalog, source) == 1
            && forall c <- was.pending :: c != quick ==> c in w.pending && w.pending[c] == was.pending[c]
  {
    var w;
    w, longer := Then(events, Policy(source));
    w, longer := Then(longer, Read(quick, id, ReopenCall()));
    w, longer := Then(longer, Write(quick));
  }

  lemma Then(events: seq<Event>, e: Event) returns (w: World, longer: seq<Event>)
    ensures longer == events + [e] && w == Run(longer) == Step(Run(events), e)
  {
    longer := events + [e];
    assert longer[..|longer| - 1] == events;
    w := Run(longer);
  }

  /******* One process: transitions are atomic *******/

  lemma AtomicIsReadThenWrite(w: World, client: Client, id: Id, call: Call)
    requires id in w.catalog.requests
    ensures Step(Step(w, Read(client, id, call)), Write(client)).catalog
            == Settle(w.catalog, Transition(w.catalog, id, call))
  {
  }

  /** An approval can be reopened exactly when the cost policy moved on after it and the call names no
      other explain revision, no approver and no digest; reopening erases the approval. */
  lemma OnlyStaleApprovalReopens(c: Catalog, id: Id, call: Call)
    requires CatalogKept(c) && id in c.requests && c.requests[id].state == Approved && call.target == ReadyForPreview
    ensures Transition(c, id, call).Ok?
            <==> && c.requests[id].approvedPolicyRevision.value < PolicyRevision(c, c.requests[id].source)
                 && (call.expectedExplain.Some? ==> call.expectedExplain.value == c.requests[id].explainRevision)
                 && call.actor.None? && call.sqlHash.None?
    ensures Transition(c, id, call).Ok? ==>
              var r := Transition(c, id, call).value.requests[id];
              r == NewRow(r.source, ReadyForPreview).(explainRevision := c.requests[id].explainRevision,
                explained := c.requests[id].explained, explainedSqlHash := c.requests[id].explainedSqlHash,
                parameterHash := c.requests[id].parameterHash)
  {
    assert RowKept(c, id, c.requests[id]);
  }

  predicate ExplainExpected(r: Row, call: Call) {
    call.expectedExplain.Some? ==> call.expectedExplain.value == r.explainRevision
  }

  /** When an approval is accepted, when it is refused for the policy alone, and that it stores the
      approver, the digests and both revisions. */
  lemma ApprovalRule(c: Catalog, id: Id, call: Call)
    requires id in c.requests && call.target == Approved
    ensures var r, revision := c.requests[id], PolicyRevision(c, c.requests[id].source);
            var sound := && r.state == ReadyForPreview && call.expectedExplain == Some(r.explainRevision)
                         && call.actor.Some? && !Blank(call.actor.value)
                         && call.sqlHash.Some? && call.sqlHash.value != ""
                         && (r.explained ==>
                               call.sqlHash == r.explainedSqlHash && call.parameterHash == r.parameterHash);
            && (Transition(c, id, call).Ok? <==> sound && call.expectedPolicy == Some(revision))
            && (Transition(c, id, call) == Err(PolicyChanged)
                <==> sound && call.expectedPolicy.Some? && call.expectedPolicy.value != revision)
            && (Transition(c, id, call).Ok? ==>
                  Transition(c, id, call).value
                  == c.(requests := c.requests[id :=
                       Row(r.source, Approved, r.explainRevision, r.explained, r.explainedSqlHash, r.parameterHash,
                           Some(Strip(call.actor.value)), Some(r.explainRevision), Some(revision), call.sqlHash,
                           call.parameterHash)]))
  {
  }

  /** When a request is put up for preview, and that any approval is gone then. */
  lemma PreviewRule(c: Catalog, id: Id, call: Call)
    requires id in c.requests && call.target == ReadyForPreview
    ensures var r, revision := c.requests[id], PolicyRevision(c, c.requests[id].source);
            && (Transition(c, id, call).Ok?
                <==> && (r.state == Validating || (r.state == Approved && r.approvedPolicyRevision != Some(revision)))
                     && ExplainExpected(r, call) && call.actor.None? && call.sqlHash.None?)
            && (Transition(c, id, call).Ok? ==>
                  Transition(c, id, call).value
                  == c.(requests := c.requests[id :=
                       Row(r.source, ReadyForPreview, r.explainRevision, r.explained, r.explainedSqlHash,
                           r.parameterHash, None, None, None, None, None)]))
  {
    MovesExactly(c.requests[id].state, ReadyForPreview);
  }

  /** When any other move is accepted, when one to EXECUTING is refused for the policy alone, and that the
      new state is all a move stores. */
  lemma MoveRule(c: Catalog, id: Id, call: Call)
    requires id in c.requests && call.target != Approved && call.target != ReadyForPreview
    ensures var r, revision := c.requests[id], PolicyRevision(c, c.requests[id].source);
            var sound := && r.state in CameFrom(call.target) && ExplainExpected(r, call)
                         && call.actor.None? && call.sqlHash.None?;
            var inForce := call.expectedPolicy == Some(revision) == r.approvedPolicyRevision;
            && (Transition(c, id, call).Ok? <==> sound && (call.target == Executing ==> inForce))
            && (Transition(c, id, call) == Err(PolicyChanged) <==> sound && call.target == Executing && !inForce)
            && (Transition(c, id, call).Ok? ==>
                  Transition(c, id, call).value == c.(requests := c.requests[id := r.(state := call.target)]))
  {
    MovesExactly(c.requests[id].state, call.target);
  }

  /** When an EXPLAIN is recorded, and that it leaves the approval columns alone. */
  lemma ExplainRule(c: Catalog, id: Id, expected: nat, e: Explain)
    requires CatalogKept(c) && id in c.requests
    ensures var r := c.requests[id];
            && (RecordExplain(c, id, expected, e).Ok? <==> r.state == ReadyForPreview && r.explainRevision == expected)
            && (RecordExplain(c, id, expected, e).Ok? ==>
                  && RecordExplain(c, id, expected, e).value.explains == c.explains[(id, r.explainRevision + 1) := e]
                  && RecordExplain(c, id, expected, e).value.policies == c.policies
                  && RecordExplain(c, id, expected, e).value.requests
                     == c.requests[id :=
                          Row(r.source, ReadyForPreview, r.explainRevision + 1, true, Some(e.sqlHash), e.parameterHash,
                              r.approvedBy, r.approvedExplainRevision, r.approvedPolicyRevision, r.approvedSqlHash,
                              r.approvedParameterHash)])
  {
    assert RowKept(c, id, c.requests[id]);
  }

  datatype Action =
    | CreateAction(id: Id, source: Source, state: State)
    | MoveAction(id: Id, call: Call)
    | ExplainAction(id: Id, expected: nat, e: Explain)
    | PolicyAction(source: Source)

  function Act(c: Catalog, a: Action): Catalog {
    match a
    case CreateAction(id, source, state) => CreateRequest(c, id, source, state)
    case MoveAction(id, call) => Settle(c, Transition(c, id, call))
    case ExplainAction(id, expected, e) => Settle(c, RecordExplain(c, id, expected, e))
    case PolicyAction(source) => UpsertPolicy(c, source)
  }

  predicate Moves(c: Catalog, a: Action, id: Id) {
    a.MoveAction? && a.id == id && Transition(c, id, a.call).Ok?
  }

  /** Transitions of one request along a run from c, and policy revisions of one source in it. */
  function MoveCount(c: Catalog, actions: seq<Action>, id: Id): nat
    decreases |actions|
  {
    if actions == [] then 0
    else (if Moves(c, actions[0], id) then 1 else 0) + MoveCount(Act(c, actions[0]), actions[1..], id)
  }

  function PolicyCount(actions: seq<Action>, source: Source): nat {
    if actions == [] then 0
    else (if actions[0] == PolicyAction(source) then 1 else 0) + PolicyCount(actions[1..], source)
  }

  /** Transitions left to a request if no further policy revision is issued. A stale approval has two
      more than a fresh one: it must be reopened and approved again before it can execute. */
  function MovesLeft(r: Row, revision: nat): nat {
    match r.state
    case ReadyForPreview => 5
    case Approved => if r.approvedPolicyRevision == Some(revision) then 4 else 6
    case Executing => 3
    case Succeeded => 2
    case ResultProcessing => 1
    case _ => 0
  }

  predicate Reviewable(s: State) {
    s in {ReadyForPreview, State.Approved} || HasExecuted(s)
  }

  lemma ActKeeps(c: Catalog, a: Action)
    requires CatalogKept(c)
    ensures CatalogKept(Act(c, a)) && Grows(c, Act(c, a))
  {
    match a
    case CreateAction(_, _, _) =>
    case MoveAction(id, call) =>
      if id in c.requests {
        CommitKeeps(c, Pending(id, c.requests[id], call));
      }
    case ExplainAction(id, expected, e) => ExplainKeeps(c, id, expected, e);
    case PolicyAction(_) =>
  }

  lemma MoveFalls(c: Catalog, id: Id, call: Call)
    requires CatalogKept(c) && id in c.requests && Reviewable(c.requests[id].state) && Transition(c, id, call).Ok?
    ensures var r, s := c.requests[id], Transition(c, id, call).value.requests[id];
            var revision := PolicyRevision(c, r.source);
            Reviewable(s.state) && s.source == r.source && MovesLeft(s, revision) + 1 <= MovesLeft(r, revision)
  {
  }

  lemma MovesLeftFalls(c: Catalog, a: Action, id: Id)
    requires CatalogKept(c) && id in c.requests && Reviewable(c.requests[id].state)
    ensures var d := Act(c, a);
            var source := c.requests[id].source;
            && id in d.requests && Reviewable(d.requests[id].state) && d.requests[id].source == source
            && MovesLeft(d.requests[id], PolicyRevision(d, source)) + (if Moves(c, a, id) then 1 else 0)
               <= MovesLeft(c.requests[id], PolicyRevision(c, source)) + (if a == PolicyAction(source) then 2 else 0)
  {
    if Moves(c, a, id) {
      MoveFalls(c, id, a.call);
    }
  }

  /** From READY_FOR_PREVIEW on, k policy revisions allow at most 2k + 5 transitions. */
  lemma {:induction false} BoundedRun(c: Catalog, actions: seq<Action>, id: Id)
    requires CatalogKept(c) && id in c.requests && Reviewable(c.requests[id].state)
    ensures MoveCount(c, actions, id)
            <= MovesLeft(c.requests[id], PolicyRevision(c, c.requests[id].source))
               + 2 * PolicyCount(actions, c.requests[id].source)
    ensures c.requests[id].state == ReadyForPreview ==>
              MoveCount(c, actions, id) <= 2 * PolicyCount(actions, c.requests[id].source) + 5
    decreases |actions|
  {
    if actions != [] {
      ActKeeps(c, actions[0]);
      MovesLeftFalls(c, actions[0], id);
      BoundedRun(Act(c, actions[0]), actions[1..], id);
    }
  }

  function ApproveCall(r: Row, revision: nat): Call {
    Call(Approved, Some("approver"), Some(r.explainRevision), Some(revision),
         if r.explained then r.explainedSqlHash else Some("digest"), r.parameterHash)
  }

  function MoveTo(target: State, revision: nat): Call {
    Call(target, None, None, Some(revision), None, None)
  }

  /** A reviewed request in this state, whose explained digest can be approved. */
  predicate Awaits(c: Catalog, id: Id, source: Source) {
    && CatalogKept(c) && id in c.requests && c.requests[id].state == ReadyForPreview
    && c.requests[id].source == source && c.requests[id].explainedSqlHash != Some("")
  }

  predicate ApprovedNow(c: Catalog, id: Id, source: Source) {
    && CatalogKept(c) && id in c.requests && c.requests[id].state == Approved && c.requests[id].source == source
    && c.requests[id].explainedSqlHash != Some("")
    && c.requests[id].approvedPolicyRevision == Some(PolicyRevision(c, source))
  }

  lemma ApproveStep(c: Catalog, id: Id, source: Source)
    requires Awaits(c, id, source)
    ensures var approve := MoveAction(id, ApproveCall(c.requests[id], PolicyRevision(c, source)));
            Moves(c, approve, id) && ApprovedNow(Act(c, approve), id, source)
  {
    assert RowKept(c, id, c.requests[id]);
    ApproverIsNamed();
    ActKeeps(c, MoveAction(id, ApproveCall(c.requests[id], PolicyRevision(c, source))));
  }

  lemma ReopenStep(c: Catalog, id: Id, source: Source)
    requires ApprovedNow(c, id, source)
    ensures var d := Act(c, PolicyAction(source));
            var reopen := MoveAction(id, ReopenCall());
            Moves(d, reopen, id) && Awaits(Act(d, reopen), id, source)
  {
    var d := Act(c, PolicyAction(source));
    ActKeeps(c, PolicyAction(source));
    ActKeeps(d, MoveAction(id, ReopenCall()));
    OnlyStaleApprovalReopens(d, id, ReopenCall());
  }

  /** The bound is met: some run with k policy revisions has exactly 2k + 5 transitions. */
  lemma {:induction false} BoundIsReached(c: Catalog, id: Id, source: Source, k: nat) returns (actions: seq<Action>)
    requires Awaits(c, id, source)
    ensures PolicyCount(actions, source) == k
    ensures MoveCount(c, actions, id) == 2 * k + 5
    decreases k
  {
    var approve := MoveAction(id, ApproveCall(c.requests[id], PolicyRevision(c, source)));
    var c1 := Act(c, approve);
    ApproveStep(c, id, source);
    if k == 0 {
      actions := FinishingRun(c1, id);
    } else {
      var reopen := MoveAction(id, ReopenCall());
      var c2 := Act(c1, PolicyAction(source));
      ReopenStep(c1, id, source);
      var rest := BoundIsReached(Act(c2, reopen), id, source, k - 1);
      Prepend(c2, reopen, rest, id, source);
      Prepend(c1, PolicyAction(source), [reopen] + rest, id, source);
      actions := [PolicyAction(source)] + ([reopen] + rest);
    }
    Prepend(c, approve, actions, id, source);
    actions := [approve] + actions;
  }

  lemma Prepend(c: Catalog, a: Action, rest: seq<Action>, id: Id, source: Source)
    ensures MoveCount(c, [a] + rest, id) == (if Moves(c, a, id) then 1 else 0) + MoveCount(Act(c, a), rest, id)
    ensures PolicyCount([a] + rest, source) == (if a == PolicyAction(source) then 1 else 0) + PolicyCount(rest, source)
  {
  }

  lemma FinishingRun(c: Catalog, id: Id) returns (actions: seq<Action>)
    requires CatalogKept(c) && id in c.requests && c.requests[id].state == Approved
    requires c.requests[id].approvedPolicyRevision == Some(PolicyRevision(c, c.requests[id].source))
    ensures PolicyCount(actions, c.requests[id].source) == 0
    ensures MoveCount(c, actions, id) == 4
  {
    var source := c.requests[id].source;
    var revision := PolicyRevision(c, source);
    var a1, a2 := MoveAction(id, MoveTo(Executing, revision)), MoveAction(id, MoveTo(Succeeded, revision));
    var a3, a4 := MoveAction(id, MoveTo(ResultProcessing, revision)), MoveAction(id, MoveTo(Completed, revision));
    var c2 := Act(c, a1);
    var c3 := Act(c2, a2);
    var c4 := Act(c3, a3);
    Prepend(c4, a4, [], id, source);
    Prepend(c3, a3, [a4] + [], id, source);
    Prepend(c2, a2, [a3] + ([a4] + []), id, source);
    actions := [a1] + ([a2] + ([a3] + ([a4] + [])));
    Prepend(c, a1, [a2] + ([a3] + ([a4] + [])), id, source);
  }

  /******* The repository, updated in place *******/

  class Repository {
    var requests: map<Id, Row>
    var policies: map<Source, nat>
    var explains: map<(Id, nat), Explain>

    constructor ()
      ensures Model() == EMPTY.catalog
    {
      requests, policies, explains := map[], map[], map[];
    }

    function Model(): Catalog
      reads this
    {
      Catalog(requests, policies, explains)
    }

    method CreateQueryRequest(id: Id, source: Source, state: State) returns (created: bool)
      modifies this
      ensures created <==> old(id !in requests) && state in {NeedsClarification, ReadyForPreview, Rejected}
      ensures created ==>
                && id in requests
                && requests[id] == Row(source, state, 0, false, None, None, None, None, None, None, None)
      ensures Model() == CreateRequest(old(Model()), id, source, state)
    {
      created := id !in requests && Creatable(state);
      if created {
        requests := requests[id := NewRow(source, state)];
      }
    }

    method TransitionQueryRequest(id: Id, call: Call) returns (r: Result<Row, Error>)
      modifies this
      ensures r.Err? <==> old(Transition(Model(), id, call)).Err?
      ensures r.Err? ==> Model() == old(Model()) && r.error == old(Transition(Model(), id, call)).error
      ensures r.Ok? ==> Model() == old(Transition(Model(), id, call)).value && r.value == requests[id]
    {
      if id !in requests {
        return Err(NotFound);
      }
      var current := requests[id];
      if call.expectedExplain.Some? && current.explainRevision != call.expectedExplain.value {
        return Err(Conflict);
      }
      if call.target == Approved && current.state != ReadyForPreview {
        return Err(Conflict);
      }
      if !CanMove(current.state, call.target) {
        return Err(InvalidTransition);
      }
      var next := current.(state := call.target);
      if call.target == Approved {
        if call.actor.None? || Blank(call.actor.value) {
          return Err(BadCall);
        }
        if call.expectedExplain.None? || call.sqlHash.None? || call.sqlHash.value == "" {
          return Err(BadCall);
        }
        if current.explained && (current.explainedSqlHash != call.sqlHash
            || current.parameterHash != call.parameterHash) {
          return Err(Conflict);
        }
        if call.expectedPolicy.None? {
          return Err(BadCall);
        }
        next := next.(approvedBy := Some(Strip(call.actor.value)), approvedPolicyRevision := call.expectedPolicy,
          approvedExplainRevision := Some(current.explainRevision),
          approvedSqlHash := call.sqlHash, approvedParameterHash := call.parameterHash);
      } else if call.actor.Some? || call.sqlHash.Some? {
        return Err(BadCall);
      }
      if call.target == ReadyForPreview {
        next := next.(approvedBy := None, approvedExplainRevision := None, approvedPolicyRevision := None,
          approvedSqlHash := None, approvedParameterHash := None);
      }
      var revision := PolicyRevision(Model(), current.source);
      if call.target == ReadyForPreview && current.state == Approved {
        if current.approvedPolicyRevision == Some(revision) {
          return Err(Conflict);
        }
      } else if call.target == Approved || call.target == Executing {
        if call.expectedPolicy != Some(revision)
           || (call.target == Executing && current.approvedPolicyRevision != Some(revision)) {
          return Err(PolicyChanged);
        }
      }
      requests := requests[id := next];
      r := Ok(next);
    }

    method RecordQueryExplain(id: Id, expected: nat, e: Explain) returns (r: Result<Row, Error>)
      modifies this
      ensures r.Err? <==> old(RecordExplain(Model(), id, expected, e)).Err?
      ensures r.Err? ==> Model() == old(Model()) && r.error == old(RecordExplain(Model(), id, expected, e)).error
      ensures r.Ok? ==> Model() == old(RecordExplain(Model(), id, expected, e)).value && r.value == requests[id]
    {
      if id !in requests {
        return Err(NotFound);
      }
      var current := requests[id];
      if current.state != ReadyForPreview || current.explainRevision != expected || (id, expected + 1) in explains {
        return Err(Conflict);
      }
      var next := current.(explainRevision := expected + 1, explained := true,
        explainedSqlHash := Some(e.sqlHash), parameterHash := e.parameterHash);
      requests := requests[id := next];
      explains := explains[(id, expected + 1) := e];
      r := Ok(next);
    }

    method UpsertExecutionCostPolicy(source: Source) returns (revision: nat)
      modifies this`policies
      ensures Model() == UpsertPolicy(old(Model()), source)
      ensures revision == PolicyRevision(Model(), source) == old(PolicyRevision(Model(), source)) + 1
      ensures forall s :: s != source ==> PolicyRevision(Model(), s) == old(PolicyRevision(Model(), s))
    {
      revision := if source in policies then policies[source] + 1 else 1;
      policies := policies[source := revision];
    }
  }
}
