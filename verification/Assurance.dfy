/**
 The adaptive-assurance planner of src/dev_flow_orchestrator/assurance.py: which
 obligations a change owes, what a conservative budget reserves for them, what
 state each is in, and which one comes next.

 Digests are injective, so an obligation's or reservation's id is its body.
 */
module Assurance {
  import opened Wrappers

  const MAX_ASSURANCE_OBLIGATIONS: nat := 64
  const MAX_REVIEW_FINDINGS: nat := 64
  const MAX_WORKFLOW_ACTIONS: nat := 256

  type Repository = string
  type Criterion = string

  datatype Kind = RepositoryCheck | IntegrationCheck | DocumentationCheck | ManualEvidence | IndependentReview

  datatype Profile = Lite | Feature | Bugfix | Investigation | Refactor | Full

  datatype Edge = Edge(
    source: Repository, target: Repository, contract: string, criteria: set<Criterion>, affected: bool)

  datatype Impact = Impact(
    confirmed: bool,
    entries: set<Repository>,
    edges: seq<Edge>,
    risky: bool,
    publicBehavior: bool,
    documentation: bool,
    manual: bool,
    executable: bool)

  datatype Request = Request(
    profile: Profile,
    criteria: set<Criterion>,
    contractDigest: string,
    repositories: seq<Repository>,
    changed: set<Repository>,
    impact: Impact)

  /** An obligation; its prerequisites are named by id, hence by body. */
  datatype Obligation = Obligation(
    kind: Kind,
    criteria: set<Criterion>,
    repositories: set<Repository>,
    contract: Option<string>,
    allowance: nat,
    sourceRework: bool,
    prerequisites: seq<Obligation>)

  datatype Reservation = Reservation(
    kind: Kind,
    repositories: set<Repository>,
    contract: Option<string>,
    allowance: nat,
    retryUnits: nat)

  datatype Budgets = Budgets(
    verification: nat,
    review: nat,
    rework: nat,
    total: nat,
    used: nat,
    reservations: seq<Reservation>,
    prerequisites: map<Reservation, set<Reservation>>)

  datatype Plan = Plan(contractDigest: string, obligations: seq<Obligation>, budgets: Budgets, remaining: int)

  datatype Error = ASSURANCE_INVALID | ASSURANCE_BUDGET_INVALID

  // ----- which obligations a change owes -----

  predicate Conservative(r: Request) {
    !r.impact.confirmed || r.profile == Full
  }

  function Affected(r: Request): set<Repository> {
    r.impact.entries + r.changed
  }

  function Keep(items: seq<Repository>, wanted: set<Repository>): seq<Repository> {
    if items == [] then []
    else Keep(items[..|items| - 1], wanted) + if items[|items| - 1] in wanted then [items[|items| - 1]] else []
  }

  function RequiredMembers(r: Request): seq<Repository> {
    if Conservative(r) then r.repositories
    else if r.profile == Investigation && !r.impact.executable then []
    else Keep(r.repositories, Affected(r))
  }

  function AffectedOnly(edges: seq<Edge>): seq<Edge> {
    if edges == [] then []
    else AffectedOnly(edges[..|edges| - 1]) + if edges[|edges| - 1].affected then [edges[|edges| - 1]] else []
  }

  function RequiredEdges(r: Request): seq<Edge> {
    if Conservative(r) then r.impact.edges else AffectedOnly(r.impact.edges)
  }

  /** The evidence contracts, each once, in order of first appearance. */
  function Contracts(edges: seq<Edge>): seq<string> {
    if edges == [] then []
    else
      var before := Contracts(edges[..|edges| - 1]);
      var c := edges[|edges| - 1].contract;
      if c in before then before else before + [c]
  }

  function Members(edges: seq<Edge>, contract: string): set<Repository> {
    (set e | e in edges && e.contract == contract :: e.source) + (set e | e in edges && e.contract == contract :: e.target)
  }

  function EdgeCriteria(edges: seq<Edge>, contract: string): set<Criterion> {
    set e, c | e in edges && e.contract == contract && c in e.criteria :: c
  }

  function Allowance(profile: Profile): nat {
    if profile == Full then 3 else 2
  }

  function RepositoryObligation(r: Request, repository: Repository): Obligation {
    Obligation(RepositoryCheck, r.criteria, {repository}, None, Allowance(r.profile), true, [])
  }

  function IntegrationObligation(r: Request, contract: string): Obligation {
    var edges := RequiredEdges(r);
    Obligation(
      IntegrationCheck, EdgeCriteria(edges, contract), Members(edges, contract), Some(contract), Allowance(r.profile),
      true, [])
  }

  function RepositoryObligations(r: Request, members: seq<Repository>): seq<Obligation> {
    seq(|members|, i requires 0 <= i < |members| => RepositoryObligation(r, members[i]))
  }

  function IntegrationObligations(r: Request, contracts: seq<string>): seq<Obligation> {
    seq(|contracts|, i requires 0 <= i < |contracts| => IntegrationObligation(r, contracts[i]))
  }

  predicate DocumentationRequired(r: Request) {
    r.profile == Full || r.impact.documentation || (r.profile == Feature && r.impact.publicBehavior)
  }

  predicate ManualRequired(r: Request) {
    r.profile == Investigation || r.impact.manual
  }

  predicate ReviewRequired(r: Request) {
    Conservative(r) || r.impact.risky
  }

  function Set(items: seq<Repository>): set<Repository> {
    set i | i in items
  }

  function Documentation(r: Request): seq<Obligation> {
    if !DocumentationRequired(r) then []
    else
      var members := RequiredMembers(r);
      [Obligation(
         DocumentationCheck, r.criteria, Set(if members == [] then r.repositories else members), None,
         Allowance(r.profile), true, [])]
  }

  function Manual(r: Request): seq<Obligation> {
    if !ManualRequired(r) then []
    else [Obligation(ManualEvidence, r.criteria, Set(RequiredMembers(r)), None, Allowance(r.profile), false, [])]
  }

  /** Everything but the review. */
  function Checks(r: Request): seq<Obligation> {
    RepositoryObligations(r, RequiredMembers(r)) +
    IntegrationObligations(r, Contracts(RequiredEdges(r))) +
    Documentation(r) +
    Manual(r)
  }

  /** The review depends on everything else. */
  function Owed(r: Request): seq<Obligation> {
    Checks(r) +
    if ReviewRequired(r) then
      [Obligation(IndependentReview, r.criteria, Set(r.repositories), None, Allowance(r.profile), true, Checks(r))]
    else []
  }

  function KindOrder(kind: Kind): nat {
    match kind
    case RepositoryCheck => 0
    case IntegrationCheck => 1
    case DocumentationCheck => 2
    case ManualEvidence => 3
    case IndependentReview => 4
  }

  /** The canonical order: by kind, and within a kind by some fixed rank of repositories and fingerprint. */
  predicate Before(a: Obligation, b: Obligation, rank: Obligation -> nat) {
    KindOrder(a.kind) < KindOrder(b.kind) || (KindOrder(a.kind) == KindOrder(b.kind) && rank(a) <= rank(b))
  }

  function Insert(o: Obligation, sorted: seq<Obligation>, rank: Obligation -> nat): seq<Obligation> {
    if sorted == [] || Before(o, sorted[0], rank) then [o] + sorted
    else [sorted[0]] + Insert(o, sorted[1..], rank)
  }

  function Sort(items: seq<Obligation>, rank: Obligation -> nat): seq<Obligation> {
    if items == [] then [] else Insert(items[|items| - 1], Sort(items[..|items| - 1], rank), rank)
  }

  // ----- what a conservative budget reserves -----

  function RepositoryReservations(r: Request): seq<Reservation> {
    var n := |r.repositories|;
    var a := Allowance(r.profile);
    seq(n, i requires 0 <= i < n => Reservation(RepositoryCheck, {r.repositories[i]}, None, a, a - 1))
  }

  function IntegrationReservations(r: Request, contracts: seq<string>): seq<Reservation> {
    var a := Allowance(r.profile);
    seq(|contracts|, i requires 0 <= i < |contracts| =>
      Reservation(IntegrationCheck, Members(r.impact.edges, contracts[i]), Some(contracts[i]), a, a - 1))
  }

  function ReviewReservation(r: Request): Reservation {
    var a := Allowance(r.profile);
    Reservation(IndependentReview, Set(r.repositories), None, a, a - 1)
  }

  function CheckReservations(r: Request): seq<Reservation> {
    var a := Allowance(r.profile);
    RepositoryReservations(r) +
    IntegrationReservations(r, Contracts(r.impact.edges)) +
    [Reservation(DocumentationCheck, Set(r.repositories), None, a, a - 1),
     Reservation(ManualEvidence, Set(r.repositories), None, a, 0)]
  }

  function Reservations(r: Request): seq<Reservation> {
    CheckReservations(r) + [ReviewReservation(r)]
  }

  /** `_prerequisite_reservations`: a review may depend on every other reservation. */
  function PrerequisiteReservations(reservations: seq<Reservation>): map<Reservation, set<Reservation>> {
    map d | d in reservations && d.kind == IndependentReview ::
      set p | p in reservations && p.kind != IndependentReview
  }

  predicate Covers(reservation: Reservation, o: Obligation) {
    && reservation.kind == o.kind
    && (o.kind == RepositoryCheck ==> reservation.repositories == o.repositories)
    && (o.kind == IntegrationCheck ==>
          reservation.repositories == o.repositories && reservation.contract == o.contract)
  }

  function Min(a: nat, b: nat): nat {
    if a <= b then a else b
  }

  function RetryUnits(reservations: seq<Reservation>): nat {
    if reservations == [] then 0
    else RetryUnits(reservations[..|reservations| - 1]) + reservations[|reservations| - 1].retryUnits
  }

  /** How much of the retry allowance each profile grants: verification, review, rework. */
  function Slack(profile: Profile): (nat, nat, nat) {
    match profile
    case Lite => (1, 1, 1)
    case Investigation => (1, 1, 1)
    case Feature => (2, 1, 2)
    case Bugfix => (2, 1, 2)
    case Refactor => (2, 1, 2)
    case Full => (4, 2, 4)
  }

  function FreshBudgets(r: Request): Budgets {
    var reservations := Reservations(r);
    var a := Allowance(r.profile);
    var checks := |CheckReservations(r)|;
    var slack := Slack(r.profile);
    var verification := Min(a * checks, checks + slack.0);
    var review := Min(a, 1 + slack.1);
    var rework := Min(slack.2, RetryUnits(reservations));
    var governance := |r.criteria| + |reservations| + 1 + review * MAX_REVIEW_FINDINGS;
    var fixedMutations := if r.profile in {Lite, Investigation} then 3 else 5;
    Budgets(
      verification, review, rework, fixedMutations + verification + review + rework + governance + 1, 0,
      reservations, PrerequisiteReservations(reservations))
  }

  // ----- the plan -----

  predicate Distinct<T(==)>(items: seq<T>) {
    forall i, j :: 0 <= i < j < |items| ==> items[i] != items[j]
  }

  /** `validate_assurance_plan`. */
  predicate Validates(plan: Plan) {
    && 1 <= |plan.obligations| <= MAX_ASSURANCE_OBLIGATIONS
    && Distinct(plan.obligations)
    && plan.budgets.total <= MAX_WORKFLOW_ACTIONS
    && plan.remaining == plan.budgets.total - plan.budgets.used
  }

  function First(reservations: seq<Reservation>, o: Obligation): Option<Reservation> {
    if reservations == [] then None
    else if Covers(reservations[0], o) then Some(reservations[0])
    else First(reservations[1..], o)
  }

  function Reviews(obligations: seq<Obligation>): nat {
    if obligations == [] then 0
    else
      Reviews(obligations[..|obligations| - 1]) +
      if obligations[|obligations| - 1].kind == IndependentReview then 1 else 0
  }

  predicate PrerequisiteReserved(o: Obligation, p: Obligation, obligations: seq<Obligation>, budgets: Budgets) {
    && p in obligations
    && First(budgets.reservations, o).Some?
    && First(budgets.reservations, o).value in budgets.prerequisites
    && First(budgets.reservations, p).Some?
    && First(budgets.reservations, p).value in budgets.prerequisites[First(budgets.reservations, o).value]
  }

  predicate Reserved(o: Obligation, obligations: seq<Obligation>, budgets: Budgets) {
    && First(budgets.reservations, o).Some?
    && forall p :: p in o.prerequisites ==> PrerequisiteReserved(o, p, obligations, budgets)
  }

  /** The budget covers every obligation, every dependency, and the number of each class. */
  predicate Adequate(obligations: seq<Obligation>, budgets: Budgets) {
    && (forall o :: o in obligations ==> Reserved(o, obligations, budgets))
    && |obligations| - Reviews(obligations) <= budgets.verification
    && Reviews(obligations) <= budgets.review
  }

  predicate CoversCriteria(obligations: seq<Obligation>, criteria: set<Criterion>) {
    (set o, c | o in obligations && c in o.criteria :: c) == criteria
  }

  /** `derive_assurance_plan`. */
  function Derive(r: Request, rank: Obligation -> nat, previous: Option<Plan>): Result<Plan, Error> {
    var obligations := Sort(Owed(r), rank);
    if obligations == [] || |obligations| > MAX_ASSURANCE_OBLIGATIONS then Failure(ASSURANCE_INVALID)
    else if !CoversCriteria(obligations, r.criteria) then Failure(ASSURANCE_INVALID)
    else if previous.Some? && !Validates(previous.value) then Failure(ASSURANCE_INVALID)
    else
      var bound := previous.Some? && previous.value.contractDigest == r.contractDigest;
      if !bound && FreshBudgets(r).total > MAX_WORKFLOW_ACTIONS then Failure(ASSURANCE_BUDGET_INVALID)
      else
        var budgets := if bound then previous.value.budgets else FreshBudgets(r);
        if !Adequate(obligations, budgets) || budgets.total < budgets.used then Failure(ASSURANCE_BUDGET_INVALID)
        else Success(Plan(r.contractDigest, obligations, budgets, budgets.total - budgets.used))
  }

  // ----- sorting keeps the obligations and puts kinds in order -----

  predicate InKindOrder(items: seq<Obligation>) {
    forall i, j :: 0 <= i < j < |items| ==> KindOrder(items[i].kind) <= KindOrder(items[j].kind)
  }

  /** Later obligations have a later kind, or the same kind and no smaller rank. */
  predicate InRankOrder(items: seq<Obligation>, rank: Obligation -> nat) {
    forall i, j :: 0 <= i < j < |items| ==>
      || KindOrder(items[i].kind) < KindOrder(items[j].kind)
      || (items[i].kind == items[j].kind && rank(items[i]) <= rank(items[j]))
  }

  lemma {:induction false} InsertHas(o: Obligation, sorted: seq<Obligation>, rank: Obligation -> nat)
    ensures forall x :: x in Insert(o, sorted, rank) <==> x == o || x in sorted
    ensures |Insert(o, sorted, rank)| == |sorted| + 1
    decreases |sorted|
  {
    if sorted != [] && !Before(o, sorted[0], rank) {
      InsertHas(o, sorted[1..], rank);
      assert sorted == [sorted[0]] + sorted[1..];
    }
  }

  lemma {:induction false} InsertKeepsOrder(o: Obligation, sorted: seq<Obligation>, rank: Obligation -> nat)
    requires InRankOrder(sorted, rank)
    ensures InRankOrder(Insert(o, sorted, rank), rank)
    decreases |sorted|
  {
    if sorted != [] && !Before(o, sorted[0], rank) {
      InsertKeepsOrder(o, sorted[1..], rank);
      InsertHas(o, sorted[1..], rank);
      var rest := Insert(o, sorted[1..], rank);
      forall i | 0 <= i < |rest| ensures Before(sorted[0], rest[i], rank) {
        assert rest[i] in rest;
      }
    }
  }

  lemma {:induction false} InsertKeepsDistinct(o: Obligation, sorted: seq<Obligation>, rank: Obligation -> nat)
    requires Distinct(sorted) && o !in sorted
    ensures Distinct(Insert(o, sorted, rank))
    decreases |sorted|
  {
    if sorted != [] && !Before(o, sorted[0], rank) {
      InsertKeepsDistinct(o, sorted[1..], rank);
      InsertHas(o, sorted[1..], rank);
      var rest := Insert(o, sorted[1..], rank);
      forall i | 0 <= i < |rest| ensures rest[i] != sorted[0] {
        assert rest[i] in rest;
      }
    }
  }

  lemma {:induction false} SortKeeps(items: seq<Obligation>, rank: Obligation -> nat)
    ensures InKindOrder(Sort(items, rank)) && InRankOrder(Sort(items, rank), rank)
    ensures forall x :: x in Sort(items, rank) <==> x in items
    ensures |Sort(items, rank)| == |items|
    ensures Distinct(items) ==> Distinct(Sort(items, rank))
    decreases |items|
  {
    if items != [] {
      var last := |items| - 1;
      SortKeeps(items[..last], rank);
      var before := Sort(items[..last], rank);
      InsertHas(items[last], before, rank);
      InsertKeepsOrder(items[last], before, rank);
      assert items == items[..last] + [items[last]];
      if Distinct(items) {
        assert items[last] !in items[..last];
        InsertKeepsDistinct(items[last], before, rank);
      }
    }
  }

  /** Every prerequisite of a derived plan stands before the obligation that needs it. */
  ghost predicate Ordered(obligations: seq<Obligation>) {
    forall i :: 0 <= i < |obligations| ==> forall p :: p in obligations[i].prerequisites ==> p in obligations[..i]
  }

  /** Only the review has prerequisites, and they are the other obligations. */
  lemma OwedShape(r: Request)
    ensures forall o :: o in Checks(r) ==> o.kind != IndependentReview && o.prerequisites == [] && o in Owed(r)
    ensures forall o :: o in Owed(r) && o !in Checks(r) ==> o.kind == IndependentReview && o.prerequisites == Checks(r)
  {
    forall o | o in Checks(r) ensures o.kind != IndependentReview && o.prerequisites == [] {
      if o in RepositoryObligations(r, RequiredMembers(r)) {
      } else if o in IntegrationObligations(r, Contracts(RequiredEdges(r))) {
      } else {
        assert o in Documentation(r) || o in Manual(r);
      }
    }
  }

  lemma LowerKindComesFirst(sorted: seq<Obligation>, i: nat, p: Obligation)
    requires InKindOrder(sorted) && i < |sorted| && p in sorted
    requires KindOrder(p.kind) < KindOrder(sorted[i].kind)
    ensures p in sorted[..i]
  {
    var j :| 0 <= j < |sorted| && sorted[j] == p;
    assert sorted[..i][j] == p;
  }

  lemma PrerequisitesPrecede(r: Request, rank: Obligation -> nat)
    ensures Ordered(Sort(Owed(r), rank))
  {
    hide Owed, Checks, Sort, InKindOrder;
    var sorted := Sort(Owed(r), rank);
    SortKeeps(Owed(r), rank);
    OwedShape(r);
    forall i, p | 0 <= i < |sorted| && p in sorted[i].prerequisites ensures p in sorted[..i] {
      assert sorted[i] in Owed(r);
      LowerKindComesFirst(sorted, i, p);
    }
  }

  // ----- distinctness -----

  lemma {:induction false} KeepIsASublist(items: seq<Repository>, wanted: set<Repository>)
    ensures forall x :: x in Keep(items, wanted) <==> x in items && x in wanted
    ensures |Keep(items, wanted)| <= |items|
    ensures Distinct(items) ==> Distinct(Keep(items, wanted))
    decreases |items|
  {
    if items != [] {
      var last := |items| - 1;
      KeepIsASublist(items[..last], wanted);
      assert items == items[..last] + [items[last]];
    }
  }

  lemma {:induction false} ContractsAreDistinct(edges: seq<Edge>)
    ensures Distinct(Contracts(edges))
    ensures forall c :: c in Contracts(edges) <==> exists e :: e in edges && e.contract == c
    decreases |edges|
  {
    if edges != [] {
      var last := |edges| - 1;
      ContractsAreDistinct(edges[..last]);
      assert edges == edges[..last] + [edges[last]];
      assert edges[last] in edges;
    }
  }

  lemma {:induction false} AffectedOnlyFilters(edges: seq<Edge>)
    ensures forall e :: e in AffectedOnly(edges) <==> e in edges && e.affected
    decreases |edges|
  {
    if edges != [] {
      var last := |edges| - 1;
      AffectedOnlyFilters(edges[..last]);
      assert edges == edges[..last] + [edges[last]];
    }
  }

  lemma RequiredAreThere(r: Request)
    ensures forall m :: m in RequiredMembers(r) ==> m in r.repositories
    ensures |RequiredMembers(r)| <= |r.repositories|
    ensures Distinct(r.repositories) ==> Distinct(RequiredMembers(r))
    ensures forall e :: e in RequiredEdges(r) ==> e in r.impact.edges
  {
    KeepIsASublist(r.repositories, Affected(r));
    AffectedOnlyFilters(r.impact.edges);
  }

  lemma DistinctConcat<T>(a: seq<T>, b: seq<T>)
    requires Distinct(a) && Distinct(b) && forall x :: x in a ==> x !in b
    ensures Distinct(a + b)
  {
    forall i, j | 0 <= i < j < |a + b| ensures (a + b)[i] != (a + b)[j] {
      assert (a + b)[i] == if i < |a| then a[i] else b[i - |a|];
      assert (a + b)[j] == if j < |a| then a[j] else b[j - |a|];
      if i < |a| <= j {
        assert a[i] in a && b[j - |a|] in b;
      }
    }
  }

  lemma RepositoryObligationsAreDistinct(r: Request, members: seq<Repository>)
    requires Distinct(members)
    ensures Distinct(RepositoryObligations(r, members))
    ensures forall o :: o in RepositoryObligations(r, members) ==> o.kind == RepositoryCheck
  {
    var os := RepositoryObligations(r, members);
    forall i, j | 0 <= i < j < |os| ensures os[i] != os[j] {
      assert members[i] in os[i].repositories && members[i] !in os[j].repositories;
    }
  }

  lemma IntegrationObligationsAreDistinct(r: Request, contracts: seq<string>)
    requires Distinct(contracts)
    ensures Distinct(IntegrationObligations(r, contracts))
    ensures forall o :: o in IntegrationObligations(r, contracts) ==> o.kind == IntegrationCheck
  {
    var os := IntegrationObligations(r, contracts);
    forall i, j | 0 <= i < j < |os| ensures os[i] != os[j] {
      assert os[i].contract == Some(contracts[i]) && os[j].contract == Some(contracts[j]);
    }
  }

  lemma OwedIsDistinct(r: Request)
    requires Distinct(r.repositories)
    ensures Distinct(Owed(r))
  {
    RequiredAreThere(r);
    ContractsAreDistinct(RequiredEdges(r));
    var repositories := RepositoryObligations(r, RequiredMembers(r));
    var integrations := IntegrationObligations(r, Contracts(RequiredEdges(r)));
    RepositoryObligationsAreDistinct(r, RequiredMembers(r));
    IntegrationObligationsAreDistinct(r, Contracts(RequiredEdges(r)));
    DistinctConcat(repositories, integrations);
    DistinctConcat(repositories + integrations, Documentation(r));
    DistinctConcat(repositories + integrations + Documentation(r), Manual(r));
    OwedShape(r);
    hide Checks;
    if ReviewRequired(r) {
      DistinctConcat(Checks(r), Owed(r)[|Checks(r)|..]);
      assert Owed(r) == Checks(r) + Owed(r)[|Checks(r)|..];
    }
  }

  /** Whatever `Derive` returns, `validate_assurance_plan` accepts, given that repositories are named once. */
  lemma DerivedPlansValidate(r: Request, rank: Obligation -> nat, previous: Option<Plan>)
    requires Distinct(r.repositories) && Derive(r, rank, previous).Success?
    ensures Validates(Derive(r, rank, previous).value)
    ensures Ordered(Derive(r, rank, previous).value.obligations)
  {
    hide Owed, Sort, FreshBudgets, Adequate;
    OwedIsDistinct(r);
    SortKeeps(Owed(r), rank);
    PrerequisitesPrecede(r, rank);
  }

  // ----- budget adequacy of a fresh plan -----

  lemma {:induction false} CountingDistinct<T>(items: seq<T>)
    requires Distinct(items)
    ensures |set x | x in items| == |items|
    decreases |items|
  {
    if items != [] {
      var last := |items| - 1;
      CountingDistinct(items[..last]);
      assert items == items[..last] + [items[last]];
      assert (set x | x in items) == (set x | x in items[..last]) + {items[last]};
      assert items[last] !in items[..last];
    }
  }

  lemma FewerContracts(r: Request)
    ensures |Contracts(RequiredEdges(r))| <= |Contracts(r.impact.edges)|
    ensures forall c :: c in Contracts(RequiredEdges(r)) ==> c in Contracts(r.impact.edges)
  {
    RequiredAreThere(r);
    var required, all := Contracts(RequiredEdges(r)), Contracts(r.impact.edges);
    ContractsAreDistinct(RequiredEdges(r));
    ContractsAreDistinct(r.impact.edges);
    CountingDistinct(required);
    CountingDistinct(all);
    SubsetIsSmaller((set c | c in required), (set c | c in all));
  }

  lemma {:induction false} ReviewsOfChecks(items: seq<Obligation>)
    requires forall o :: o in items ==> o.kind != IndependentReview
    ensures Reviews(items) == 0
    decreases |items|
  {
    if items != [] {
      ReviewsOfChecks(items[..|items| - 1]);
    }
  }

  lemma {:induction false} InsertCounts(o: Obligation, sorted: seq<Obligation>, rank: Obligation -> nat)
    ensures Reviews(Insert(o, sorted, rank)) == Reviews(sorted) + if o.kind == IndependentReview then 1 else 0
    decreases |sorted|
  {
    if sorted == [] || Before(o, sorted[0], rank) {
      ReviewsFromFront([o], sorted);
      assert Reviews([o]) == if o.kind == IndependentReview then 1 else 0;
    } else {
      InsertCounts(o, sorted[1..], rank);
      ReviewsFromFront([sorted[0]], Insert(o, sorted[1..], rank));
      ReviewsFromFront([sorted[0]], sorted[1..]);
      assert sorted == [sorted[0]] + sorted[1..];
    }
  }

  lemma {:induction false} ReviewsFromFront(a: seq<Obligation>, b: seq<Obligation>)
    ensures Reviews(a + b) == Reviews(a) + Reviews(b)
    decreases |b|
  {
    if b == [] {
      assert a + b == a;
    } else {
      ReviewsFromFront(a, b[..|b| - 1]);
      assert (a + b)[..|a + b| - 1] == a + b[..|b| - 1];
    }
  }

  lemma {:induction false} SortCounts(items: seq<Obligation>, rank: Obligation -> nat)
    ensures Reviews(Sort(items, rank)) == Reviews(items)
    decreases |items|
  {
    if items != [] {
      var last := |items| - 1;
      SortCounts(items[..last], rank);
      InsertCounts(items[last], Sort(items[..last], rank), rank);
    }
  }

  lemma CeilingsHaveRoom(r: Request)
    ensures FreshBudgets(r).verification >= |CheckReservations(r)|
    ensures FreshBudgets(r).review >= 1
    ensures FreshBudgets(r).reservations == Reservations(r) && FreshBudgets(r).used == 0
    ensures FreshBudgets(r).prerequisites == PrerequisiteReservations(Reservations(r))
  {
    hide CheckReservations, RetryUnits;
    var checks := |CheckReservations(r)|;
    assert Allowance(r.profile) * checks >= checks;
  }

  lemma SizesFit(r: Request)
    ensures |Checks(r)| <= |CheckReservations(r)|
    ensures Reviews(Owed(r)) == |Owed(r)| - |Checks(r)| <= 1
  {
    RequiredAreThere(r);
    FewerContracts(r);
    assert |Checks(r)| <= |CheckReservations(r)| by {
      hide RequiredMembers, RequiredEdges, Contracts;
      assert |RepositoryObligations(r, RequiredMembers(r))| <= |RepositoryReservations(r)|;
    }
    OwedShape(r);
    hide Checks;
    ReviewsOfChecks(Checks(r));
    var review := Owed(r)[|Checks(r)|..];
    ReviewsFromFront(Checks(r), review);
    assert Owed(r) == Checks(r) + review;
  }

  /** A fresh budget always has room for each required execution once. */
  lemma CountsFitFreshCeilings(r: Request, rank: Obligation -> nat)
    ensures
      var obligations := Sort(Owed(r), rank);
      && |obligations| - Reviews(obligations) <= FreshBudgets(r).verification
      && Reviews(obligations) <= FreshBudgets(r).review
  {
    hide Sort, Owed, Checks, FreshBudgets, CheckReservations;
    SortKeeps(Owed(r), rank);
    SortCounts(Owed(r), rank);
    SizesFit(r);
    CeilingsHaveRoom(r);
  }

  lemma {:induction false} FirstCovers(reservations: seq<Reservation>, o: Obligation)
    ensures First(reservations, o).Some? <==> exists k :: 0 <= k < |reservations| && Covers(reservations[k], o)
    ensures First(reservations, o).Some? ==>
      First(reservations, o).value in reservations && Covers(First(reservations, o).value, o)
    decreases |reservations|
  {
    if reservations != [] {
      FirstCovers(reservations[1..], o);
      assert reservations == [reservations[0]] + reservations[1..];
      if exists k :: 0 <= k < |reservations| && Covers(reservations[k], o) {
        var k :| 0 <= k < |reservations| && Covers(reservations[k], o);
        assert k > 0 ==> reservations[1..][k - 1] == reservations[k];
      }
    }
  }

  /** Affected edges of each evidence contract reach every repository that any of its edges reaches. */
  ghost predicate Spans(r: Request) {
    forall c :: c in Contracts(RequiredEdges(r)) ==> Members(RequiredEdges(r), c) == Members(r.impact.edges, c)
  }

  /** An integration obligation is covered exactly when its edges span the contract. */
  lemma IntegrationCoveredExactly(r: Request, c: string)
    requires c in Contracts(RequiredEdges(r))
    ensures First(Reservations(r), IntegrationObligation(r, c)).Some? <==>
            Members(RequiredEdges(r), c) == Members(r.impact.edges, c)
  {
    var o := IntegrationObligation(r, c);
    FirstCovers(Reservations(r), o);
    FewerContracts(r);
    var contracts := Contracts(r.impact.edges);
    var i :| 0 <= i < |contracts| && contracts[i] == c;
    var k := |r.repositories| + i;
    assert Reservations(r)[k] == IntegrationReservations(r, contracts)[i];
    assert Reservations(r)[k].repositories == Members(r.impact.edges, c);
    if First(Reservations(r), o).Some? {
      var v := First(Reservations(r), o).value;
      assert v in IntegrationReservations(r, contracts);
    }
  }

  lemma RepositoryIsCovered(r: Request, m: Repository)
    requires m in r.repositories
    ensures First(Reservations(r), RepositoryObligation(r, m)).Some?
  {
    FirstCovers(Reservations(r), RepositoryObligation(r, m));
    var k :| 0 <= k < |r.repositories| && r.repositories[k] == m;
    assert RepositoryReservations(r)[k].repositories == {m};
    assert Reservations(r)[k] == RepositoryReservations(r)[k];
  }

  /** Documentation, manual evidence and review are reserved as such, whatever their scope. */
  lemma SingletonIsCovered(r: Request, o: Obligation)
    requires o.kind !in {RepositoryCheck, IntegrationCheck}
    ensures First(Reservations(r), o).Some?
  {
    hide RepositoryReservations, IntegrationReservations, Contracts;
    FirstCovers(Reservations(r), o);
    var last := |Reservations(r)|;
    assert Reservations(r)[last - 1].kind == IndependentReview;
    assert Reservations(r)[last - 2].kind == ManualEvidence;
    assert Reservations(r)[last - 3].kind == DocumentationCheck;
  }

  /** Everything but an integration obligation is always covered. */
  lemma OthersAreCovered(r: Request, o: Obligation)
    requires o in Owed(r) && o.kind != IntegrationCheck
    ensures First(Reservations(r), o).Some?
  {
    hide First, Reservations, RequiredMembers, RequiredEdges, Contracts;
    if o.kind == RepositoryCheck {
      RequiredAreThere(r);
      OwedShape(r);
      assert o in RepositoryObligations(r, RequiredMembers(r));
      var i :| 0 <= i < |RequiredMembers(r)| && o == RepositoryObligation(r, RequiredMembers(r)[i]);
      assert RequiredMembers(r)[i] in RequiredMembers(r);
      RepositoryIsCovered(r, RequiredMembers(r)[i]);
    } else {
      SingletonIsCovered(r, o);
    }
  }

  lemma CoverKind(r: Request, o: Obligation)
    requires First(Reservations(r), o).Some?
    ensures First(Reservations(r), o).value in Reservations(r) && First(Reservations(r), o).value.kind == o.kind
  {
    FirstCovers(Reservations(r), o);
  }

  /** In a fresh budget, an obligation and its dependencies are reserved exactly when they are all covered. */
  lemma ReservedExactly(r: Request, o: Obligation, obligations: seq<Obligation>)
    requires o in Owed(r) && forall x :: x in obligations <==> x in Owed(r)
    ensures Reserved(o, obligations, FreshBudgets(r)) <==>
            First(Reservations(r), o).Some? && forall p :: p in o.prerequisites ==> First(Reservations(r), p).Some?
  {
    CeilingsHaveRoom(r);
    OwedShape(r);
    hide Owed, Checks, FreshBudgets, Reservations, First;
    var budgets := FreshBudgets(r);
    if First(Reservations(r), o).Some? {
      CoverKind(r, o);
      forall p | p in o.prerequisites && First(Reservations(r), p).Some?
        ensures PrerequisiteReserved(o, p, obligations, budgets)
      {
        CoverKind(r, p);
      }
    }
  }

  /**
   A fresh plan's reservations cover its obligations exactly when, for each
   evidence contract with a required edge, the required edges span the same
   repositories as all of its edges.
   */
  lemma FreshCoverageIsExact(r: Request, rank: Obligation -> nat)
    ensures Adequate(Sort(Owed(r), rank), FreshBudgets(r)) <==> Spans(r)
  {
    var obligations := Sort(Owed(r), rank);
    SortKeeps(Owed(r), rank);
    CountsFitFreshCeilings(r, rank);
    hide Sort, FreshBudgets, First, Reservations, Reserved, Reviews;
    if Spans(r) {
      forall o | o in obligations ensures Reserved(o, obligations, FreshBudgets(r)) {
        AllCovered(r, o);
        OwedShape(r);
        forall p | p in o.prerequisites ensures First(Reservations(r), p).Some? {
          AllCovered(r, p);
        }
        ReservedExactly(r, o, obligations);
      }
    } else {
      var c :| c in Contracts(RequiredEdges(r)) && Members(RequiredEdges(r), c) != Members(r.impact.edges, c);
      var o := IntegrationObligation(r, c);
      IntegrationCoveredExactly(r, c);
      IntegrationIsOwed(r, c);
      ReservedExactly(r, o, obligations);
      assert o in obligations && !Reserved(o, obligations, FreshBudgets(r));
    }
  }

  lemma IntegrationIsOwed(r: Request, c: string)
    requires c in Contracts(RequiredEdges(r))
    ensures IntegrationObligation(r, c) in Owed(r)
  {
    var contracts := Contracts(RequiredEdges(r));
    var i :| 0 <= i < |contracts| && contracts[i] == c;
    assert IntegrationObligations(r, contracts)[i] == IntegrationObligation(r, c);
    assert IntegrationObligation(r, c) in IntegrationObligations(r, contracts);
    OwedShape(r);
    assert IntegrationObligation(r, c) in Checks(r);
  }

  lemma AllCovered(r: Request, o: Obligation)
    requires Spans(r) && o in Owed(r)
    ensures First(Reservations(r), o).Some?
  {
    if o.kind == IntegrationCheck {
      OwedShape(r);
      assert o in IntegrationObligations(r, Contracts(RequiredEdges(r)));
      IntegrationCoveredExactly(r, o.contract.value);
    } else {
      OthersAreCovered(r, o);
    }
  }

  /** For `full` and for unconfirmed impact, coverage never fails. */
  lemma ConservativePlansSpan(r: Request)
    requires Conservative(r)
    ensures Spans(r)
  {
  }

  /**
   For every other profile it can: one contract with an affected edge between
   two repositories and an unaffected edge to a third.  The planner then
   refuses its own first plan.
   */
  lemma FirstPlanMayBeRefused(rank: Obligation -> nat)
    ensures
      var edges := [Edge("a", "b", "c", {"x"}, true), Edge("b", "d", "c", {"x"}, false)];
      var r := Request(
        Lite, {"x"}, "k", ["a", "b", "d"], {"a"}, Impact(true, {}, edges, false, false, false, false, false));
      !Adequate(Sort(Owed(r), rank), FreshBudgets(r))
  {
    var edges := [Edge("a", "b", "c", {"x"}, true), Edge("b", "d", "c", {"x"}, false)];
    var r := Request(
      Lite, {"x"}, "k", ["a", "b", "d"], {"a"}, Impact(true, {}, edges, false, false, false, false, false));
    hide Adequate, Sort, Owed, FreshBudgets, Contracts, AffectedOnly;
    FreshCoverageIsExact(r, rank);
    AffectedOnlyFilters(edges);
    ContractsAreDistinct(RequiredEdges(r));
    assert edges[0] in RequiredEdges(r);
    assert edges[1] in edges && edges[1].target in Members(edges, "c");
    assert "c" in Contracts(RequiredEdges(r));
    assert "d" !in Members(RequiredEdges(r), "c");
  }

  /** When a first plan exists at all. */
  lemma FirstPlanExists(r: Request, rank: Obligation -> nat)
    ensures Derive(r, rank, None).Success? <==>
            && 1 <= |Owed(r)| <= 64
            && (forall c :: c in r.criteria <==> exists o :: o in Owed(r) && c in o.criteria)
            && FreshBudgets(r).total <= 256
            && Spans(r)
  {
    SortKeeps(Owed(r), rank);
    FreshCoverageIsExact(r, rank);
    CeilingsHaveRoom(r);
    hide Owed, Sort, FreshBudgets, Adequate, Spans;
    var sorted := Sort(Owed(r), rank);
    assert (set o, c | o in sorted && c in o.criteria :: c) == (set o, c | o in Owed(r) && c in o.criteria :: c);
  }

  /** What every plan satisfies, and what the plan it replaces must: bounds, distinctness, criteria, an honest remainder. */
  lemma PlansAreInOrder(r: Request, rank: Obligation -> nat, previous: Option<Plan>)
    requires Distinct(r.repositories) && Derive(r, rank, previous).Success?
    ensures
      var plan := Derive(r, rank, previous).value;
      && plan.contractDigest == r.contractDigest && InRankOrder(plan.obligations, rank)
      && 1 <= |plan.obligations| <= 64 && plan.budgets.total <= 256
      && (forall i, j :: 0 <= i < j < |plan.obligations| ==> plan.obligations[i] != plan.obligations[j])
      && (forall c :: c in r.criteria <==> exists o :: o in plan.obligations && c in o.criteria)
      && (previous.Some? ==>
            && 1 <= |previous.value.obligations| <= 64 && previous.value.budgets.total <= 256
            && (forall i, j :: 0 <= i < j < |previous.value.obligations| ==>
                  previous.value.obligations[i] != previous.value.obligations[j])
            && previous.value.remaining == previous.value.budgets.total - previous.value.budgets.used)
      && plan.budgets ==
         if previous.Some? && previous.value.contractDigest == r.contractDigest then previous.value.budgets
         else FreshBudgets(r)
  {
    DerivedPlansValidate(r, rank, previous);
    SortKeeps(Owed(r), rank);
    hide Owed, Sort, FreshBudgets, Adequate, InRankOrder;
  }

  // ----- what a plan owes, by the fields of the request -----

  predicate Everything(r: Request) {
    !r.impact.confirmed || r.profile == Full
  }

  /** This repository must be checked. */
  predicate MemberDue(r: Request, m: Repository) {
    m in r.repositories &&
    (Everything(r)
     || ((r.profile == Investigation ==> r.impact.executable) && (m in r.impact.entries || m in r.changed)))
  }

  /** This edge must be checked. */
  predicate EdgeDue(r: Request, e: Edge) {
    e in r.impact.edges && (Everything(r) || e.affected)
  }

  predicate ReviewDue(r: Request) {
    !r.impact.confirmed || r.profile == Full || r.impact.risky
  }

  predicate DocumentationDue(r: Request) {
    r.profile == Full || r.impact.documentation || (r.profile == Feature && r.impact.publicBehavior)
  }

  predicate ManualDue(r: Request) {
    r.profile == Investigation || r.impact.manual
  }

  ghost predicate ScopeOf(r: Request, o: Obligation, all: bool) {
    forall m :: m in o.repositories <==> m in r.repositories && (all || MemberDue(r, m))
  }

  /** What one obligation of a plan must be. */
  ghost predicate RightlyOwed(r: Request, o: Obligation, obligations: seq<Obligation>) {
    && o.allowance == (if r.profile == Full then 3 else 2)
    && (o.kind != IntegrationCheck ==> o.contract == None && o.criteria == r.criteria)
    && (o.kind != IndependentReview ==> o.prerequisites == [])
    && (o.sourceRework <==> o.kind != ManualEvidence)
    && match o.kind
       case RepositoryCheck =>
         exists m :: o.repositories == {m} && MemberDue(r, m)
       case IntegrationCheck =>
         && o.contract.Some? && (exists e :: EdgeDue(r, e) && e.contract == o.contract.value)
         && (forall m :: m in o.repositories <==>
               exists e :: EdgeDue(r, e) && e.contract == o.contract.value && (e.source == m || e.target == m))
         && (forall c :: c in o.criteria <==>
               exists e :: EdgeDue(r, e) && e.contract == o.contract.value && c in e.criteria)
       case DocumentationCheck =>
         DocumentationDue(r) && ScopeOf(r, o, forall m :: m in r.repositories ==> !MemberDue(r, m))
       case ManualEvidence =>
         ManualDue(r) && ScopeOf(r, o, false)
       case IndependentReview =>
         ReviewDue(r) && ScopeOf(r, o, true)
         && forall p :: p in o.prerequisites <==> p in obligations && p.kind != IndependentReview
  }

  /** Every obligation of the plan is rightly owed, and everything that is due has one. */
  ghost predicate OwesWhatIsDue(r: Request, obligations: seq<Obligation>) {
    && (forall o :: o in obligations ==> RightlyOwed(r, o, obligations))
    && (forall m :: MemberDue(r, m) ==> exists o :: o in obligations && o.kind == RepositoryCheck && o.repositories == {m})
    && (forall e :: EdgeDue(r, e) ==>
          exists o :: o in obligations && o.kind == IntegrationCheck && o.contract == Some(e.contract))
    && (DocumentationDue(r) ==> exists o :: o in obligations && o.kind == DocumentationCheck)
    && (ManualDue(r) ==> exists o :: o in obligations && o.kind == ManualEvidence)
    && (ReviewDue(r) ==> exists o :: o in obligations && o.kind == IndependentReview)
  }

  predicate ReservesFor(reservation: Reservation, o: Obligation) {
    && reservation.kind == o.kind
    && (o.kind == RepositoryCheck || o.kind == IntegrationCheck ==> reservation.repositories == o.repositories)
    && (o.kind == IntegrationCheck ==> reservation.contract == o.contract)
  }

  /** This reservation of the dependent obligation leaves room for its prerequisite. */
  ghost predicate SecuresDependency(v: Reservation, p: Obligation, obligations: seq<Obligation>, budgets: Budgets) {
    && p in obligations && v in budgets.prerequisites
    && exists w :: w in budgets.prerequisites[v] && w in budgets.reservations && ReservesFor(w, p)
  }

  ghost predicate SecuresOne(o: Obligation, obligations: seq<Obligation>, budgets: Budgets) {
    exists v ::
      && v in budgets.reservations && ReservesFor(v, o)
      && forall p :: p in o.prerequisites ==> SecuresDependency(v, p, obligations, budgets)
  }

  /** The places in the plan of its reviews, and of everything else. */
  function Places(obligations: seq<Obligation>, review: bool): set<int> {
    set i | 0 <= i < |obligations| && (obligations[i].kind == IndependentReview <==> review)
  }

  /** The budget has a reservation for every obligation and dependency, and room for each required execution once. */
  ghost predicate Secured(plan: Plan) {
    && (forall o :: o in plan.obligations ==> SecuresOne(o, plan.obligations, plan.budgets))
    && |Places(plan.obligations, true)| <= plan.budgets.review
    && |Places(plan.obligations, false)| <= plan.budgets.verification
    && plan.remaining == plan.budgets.total - plan.budgets.used && plan.budgets.used <= plan.budgets.total
  }

  lemma PlacesGrow(obligations: seq<Obligation>, o: Obligation, review: bool)
    ensures
      |Places(obligations + [o], review)| ==
      |Places(obligations, review)| + if o.kind == IndependentReview <==> review then 1 else 0
  {
    var all := obligations + [o];
    var here := o.kind == IndependentReview <==> review;
    assert Places(all, review) == Places(obligations, review) + if here then {|obligations|} else {};
  }

  lemma {:induction false} ReviewsAreCounted(obligations: seq<Obligation>)
    ensures |Places(obligations, true)| == Reviews(obligations)
    ensures |Places(obligations, false)| == |obligations| - Reviews(obligations)
    decreases |obligations|
  {
    if obligations != [] {
      var last := |obligations| - 1;
      ReviewsAreCounted(obligations[..last]);
      PlacesGrow(obligations[..last], obligations[last], true);
      PlacesGrow(obligations[..last], obligations[last], false);
      assert obligations == obligations[..last] + [obligations[last]];
      hide Places;
    }
  }

  lemma DerivedPlansAreSecured(r: Request, rank: Obligation -> nat, previous: Option<Plan>)
    requires Derive(r, rank, previous).Success?
    ensures Secured(Derive(r, rank, previous).value)
  {
    hide Sort, Owed, FreshBudgets, Reviews, Places, SecuresOne, Reserved;
    var plan := Derive(r, rank, previous).value;
    ReviewsAreCounted(plan.obligations);
    assert Adequate(plan.obligations, plan.budgets);
    forall o | o in plan.obligations ensures SecuresOne(o, plan.obligations, plan.budgets) {
      ReservedMeans(o, plan.obligations, plan.budgets);
    }
  }

  lemma ReservedMeans(o: Obligation, obligations: seq<Obligation>, budgets: Budgets)
    requires Reserved(o, obligations, budgets)
    ensures SecuresOne(o, obligations, budgets)
  {
    FirstCovers(budgets.reservations, o);
    var v := First(budgets.reservations, o).value;
    hide First;
    assert ReservesFor(v, o);
    forall p | p in o.prerequisites ensures SecuresDependency(v, p, obligations, budgets) {
      assert PrerequisiteReserved(o, p, obligations, budgets);
      FirstCovers(budgets.reservations, p);
    }
  }

  lemma MembersAreDue(r: Request)
    ensures forall m :: m in RequiredMembers(r) <==> MemberDue(r, m)
    ensures forall e :: e in RequiredEdges(r) <==> EdgeDue(r, e)
    ensures forall c :: c in Contracts(RequiredEdges(r)) <==> exists e :: EdgeDue(r, e) && e.contract == c
  {
    KeepIsASublist(r.repositories, Affected(r));
    AffectedOnlyFilters(r.impact.edges);
    ContractsAreDistinct(RequiredEdges(r));
  }

  lemma RepositoryObligationsAreRight(r: Request, o: Obligation, obligations: seq<Obligation>)
    requires o in RepositoryObligations(r, RequiredMembers(r))
    ensures RightlyOwed(r, o, obligations)
  {
    MembersAreDue(r);
    hide RequiredMembers, MemberDue;
    var i :| 0 <= i < |RequiredMembers(r)| && o == RepositoryObligation(r, RequiredMembers(r)[i]);
    assert RequiredMembers(r)[i] in RequiredMembers(r);
    assert o.repositories == {RequiredMembers(r)[i]};
  }

  lemma IntegrationObligationsAreRight(r: Request, o: Obligation, obligations: seq<Obligation>)
    requires o in IntegrationObligations(r, Contracts(RequiredEdges(r)))
    ensures RightlyOwed(r, o, obligations)
  {
    MembersAreDue(r);
    hide RequiredEdges, EdgeDue, Contracts;
    var contracts := Contracts(RequiredEdges(r));
    var i :| 0 <= i < |contracts| && o == IntegrationObligation(r, contracts[i]);
    assert contracts[i] in contracts;
  }

  lemma SingletonsAreRight(r: Request, o: Obligation, obligations: seq<Obligation>)
    requires o in Documentation(r) || o in Manual(r)
    ensures RightlyOwed(r, o, obligations)
  {
    MembersAreDue(r);
    RequiredAreThere(r);
    hide RequiredMembers, MemberDue;
    if o in Documentation(r) {
      if RequiredMembers(r) != [] {
        assert RequiredMembers(r)[0] in RequiredMembers(r);
      }
    }
  }

  lemma WhatAPlanOwes(r: Request, rank: Obligation -> nat)
    ensures OwesWhatIsDue(r, Sort(Owed(r), rank))
  {
    var obligations := Sort(Owed(r), rank);
    SortKeeps(Owed(r), rank);
    OwedShape(r);
    forall o | o in obligations ensures RightlyOwed(r, o, obligations) {
      if o in Checks(r) {
        ChecksAreRight(r, o, obligations);
      } else {
        ReviewIsRight(r, o, obligations);
      }
    }
    AllDueAreOwed(r);
    hide Sort, Owed, Checks, RightlyOwed, MemberDue, EdgeDue, DocumentationDue, ManualDue, ReviewDue;
  }

  lemma ChecksAreRight(r: Request, o: Obligation, obligations: seq<Obligation>)
    requires o in Checks(r)
    ensures RightlyOwed(r, o, obligations)
  {
    hide RightlyOwed, RepositoryObligations, IntegrationObligations, Documentation, Manual;
    if o in RepositoryObligations(r, RequiredMembers(r)) {
      RepositoryObligationsAreRight(r, o, obligations);
    } else if o in IntegrationObligations(r, Contracts(RequiredEdges(r))) {
      IntegrationObligationsAreRight(r, o, obligations);
    } else {
      SingletonsAreRight(r, o, obligations);
    }
  }

  lemma ReviewIsRight(r: Request, o: Obligation, obligations: seq<Obligation>)
    requires o in Owed(r) && o !in Checks(r) && forall x :: x in obligations <==> x in Owed(r)
    ensures RightlyOwed(r, o, obligations)
  {
    OwedShape(r);
    hide Checks;
    assert o == Obligation(IndependentReview, r.criteria, Set(r.repositories), None, Allowance(r.profile), true, Checks(r));
  }

  lemma AllDueAreOwed(r: Request)
    ensures forall m :: MemberDue(r, m) ==> exists o :: o in Owed(r) && o.kind == RepositoryCheck && o.repositories == {m}
    ensures forall e :: EdgeDue(r, e) ==>
      exists o :: o in Owed(r) && o.kind == IntegrationCheck && o.contract == Some(e.contract)
    ensures DocumentationDue(r) ==> exists o :: o in Owed(r) && o.kind == DocumentationCheck
    ensures ManualDue(r) ==> exists o :: o in Owed(r) && o.kind == ManualEvidence
    ensures ReviewDue(r) ==> exists o :: o in Owed(r) && o.kind == IndependentReview
  {
    MembersAreDue(r);
    forall m | MemberDue(r, m) ensures exists o :: o in Owed(r) && o.kind == RepositoryCheck && o.repositories == {m} {
      MemberIsOwed(r, m);
    }
    forall e | EdgeDue(r, e)
      ensures exists o :: o in Owed(r) && o.kind == IntegrationCheck && o.contract == Some(e.contract)
    {
      IntegrationIsOwed(r, e.contract);
      assert IntegrationObligation(r, e.contract).contract == Some(e.contract);
    }
    OwedShape(r);
    SingletonsAreOwed(r);
  }

  lemma MemberIsOwed(r: Request, m: Repository)
    requires m in RequiredMembers(r)
    ensures RepositoryObligation(r, m) in Owed(r) && RepositoryObligation(r, m).repositories == {m}
  {
    OwedShape(r);
    hide Owed, RequiredMembers;
    var i :| 0 <= i < |RequiredMembers(r)| && RequiredMembers(r)[i] == m;
    assert RepositoryObligations(r, RequiredMembers(r))[i] == RepositoryObligation(r, m);
    assert RepositoryObligation(r, m) in Checks(r);
  }

  lemma SingletonsAreOwed(r: Request)
    ensures DocumentationDue(r) ==> exists o :: o in Owed(r) && o.kind == DocumentationCheck
    ensures ManualDue(r) ==> exists o :: o in Owed(r) && o.kind == ManualEvidence
    ensures ReviewDue(r) ==> exists o :: o in Owed(r) && o.kind == IndependentReview
  {
    OwedShape(r);
    if DocumentationDue(r) {
      assert Documentation(r)[0] in Checks(r);
    }
    if ManualDue(r) {
      assert Manual(r)[0] in Checks(r);
    }
    if ReviewDue(r) {
      assert Owed(r)[|Owed(r)| - 1].kind == IndependentReview;
    }
  }

  // ----- what a fresh budget comes to -----

  /** What each profile grants beyond once over. */
  function Extra(profile: Profile): nat {
    if profile == Full then 4 else if profile == Lite || profile == Investigation then 1 else 2
  }

  lemma {:induction false} RetriesAdd(a: seq<Reservation>, b: seq<Reservation>)
    ensures RetryUnits(a + b) == RetryUnits(a) + RetryUnits(b)
    decreases |b|
  {
    if b == [] {
      assert a + b == a;
    } else {
      RetriesAdd(a, b[..|b| - 1]);
      assert (a + b)[..|a + b| - 1] == a + b[..|b| - 1];
    }
  }

  lemma {:induction false} EqualRetries(items: seq<Reservation>, units: nat)
    requires forall i :: 0 <= i < |items| ==> items[i].retryUnits == units
    ensures RetryUnits(items) == units * |items|
    decreases |items|
  {
    if items != [] {
      EqualRetries(items[..|items| - 1], units);
    }
  }

  lemma RetriesInClosedForm(r: Request)
    ensures
      RetryUnits(Reservations(r)) ==
      (if r.profile == Full then 2 else 1) * (|r.repositories| + |Contracts(r.impact.edges)| + 2)
  {
    hide Contracts;
    var u := if r.profile == Full then 2 else 1;
    var repositories, integrations := RepositoryReservations(r), IntegrationReservations(r, Contracts(r.impact.edges));
    var a := Allowance(r.profile);
    var documentation := Reservation(DocumentationCheck, Set(r.repositories), None, a, a - 1);
    var manual := Reservation(ManualEvidence, Set(r.repositories), None, a, 0);
    EqualRetries(repositories, u);
    EqualRetries(integrations, u);
    EqualRetries([documentation], u);
    EqualRetries([manual], 0);
    EqualRetries([ReviewReservation(r)], u);
    RetriesAdd(repositories, integrations);
    RetriesAdd(repositories + integrations, [documentation]);
    RetriesAdd(repositories + integrations + [documentation], [manual]);
    RetriesAdd(repositories + integrations + [documentation] + [manual], [ReviewReservation(r)]);
    assert Reservations(r) == repositories + integrations + [documentation] + [manual] + [ReviewReservation(r)];
  }

  /** The ceilings, in numbers: once over everything, and the profile's extra. */
  lemma BudgetsInClosedForm(r: Request)
    ensures
      var checks := |r.repositories| + |Contracts(r.impact.edges)| + 2;
      var extra := Extra(r.profile);
      var review := if r.profile == Full then 3 else 2;
      var budgets := FreshBudgets(r);
      && budgets.verification == checks + extra && budgets.review == review && budgets.rework == extra
      && budgets.total ==
         (if r.profile == Lite || r.profile == Investigation then 3 else 5)
         + checks + extra + review + extra + |r.criteria| + (checks + 1) + 1 + 64 * review + 1
  {
    hide Contracts, Reservations;
    RetriesInClosedForm(r);
    assert |CheckReservations(r)| == |r.repositories| + |Contracts(r.impact.edges)| + 2;
    ReservationsCount(r);
  }

  lemma ReservedRepositories(r: Request, v: Reservation)
    ensures
      v in RepositoryReservations(r) <==>
      && v.kind == RepositoryCheck && v.contract.None? && v.allowance == Allowance(r.profile)
      && v.retryUnits == v.allowance - 1 && exists m :: m in r.repositories && v.repositories == {m}
  {
    var a := Allowance(r.profile);
    if m :| m in r.repositories && v == Reservation(RepositoryCheck, {m}, None, a, a - 1) {
      var i :| 0 <= i < |r.repositories| && r.repositories[i] == m;
      assert RepositoryReservations(r)[i] == v;
    }
  }

  lemma ReservedContracts(r: Request, v: Reservation)
    ensures
      v in IntegrationReservations(r, Contracts(r.impact.edges)) <==>
      && v.kind == IntegrationCheck && v.contract.Some? && v.allowance == Allowance(r.profile)
      && v.retryUnits == v.allowance - 1 && v.repositories == Members(r.impact.edges, v.contract.value)
      && exists e :: e in r.impact.edges && e.contract == v.contract.value
  {
    ContractsAreDistinct(r.impact.edges);
    var contracts := Contracts(r.impact.edges);
    hide Contracts, Members;
    if v.contract.Some? && v.contract.value in contracts {
      var i :| 0 <= i < |contracts| && contracts[i] == v.contract.value;
      assert IntegrationReservations(r, contracts)[i].contract == v.contract;
    }
  }

  /** What a fresh budget reserves, by the fields of the request. */
  lemma WhatABudgetReserves(r: Request, v: Reservation)
    ensures
      var n := if r.profile == Full then 3 else 2;
      v in FreshBudgets(r).reservations <==>
      && v.allowance == n && v.retryUnits == (if v.kind == ManualEvidence then 0 else n - 1)
      && match v.kind
         case RepositoryCheck => v.contract.None? && exists m :: m in r.repositories && v.repositories == {m}
         case IntegrationCheck =>
           && v.contract.Some?
           && (exists e :: e in r.impact.edges && e.contract == v.contract.value)
           && forall m :: m in v.repositories <==>
                exists e :: e in r.impact.edges && e.contract == v.contract.value && m in {e.source, e.target}
         case _ => v.contract.None? && forall m :: m in v.repositories <==> m in r.repositories
  {
    ReservedRepositories(r, v);
    ReservedContracts(r, v);
    var contracts, a := Contracts(r.impact.edges), Allowance(r.profile);
    var documentation := Reservation(DocumentationCheck, Set(r.repositories), None, a, a - 1);
    var manual := Reservation(ManualEvidence, Set(r.repositories), None, a, 0);
    assert FreshBudgets(r).reservations ==
      RepositoryReservations(r) + IntegrationReservations(r, contracts) + [documentation, manual] + [ReviewReservation(r)];
    hide RepositoryReservations, IntegrationReservations, Contracts, FreshBudgets, Members;
    assert v in FreshBudgets(r).reservations <==>
      || v in RepositoryReservations(r) || v in IntegrationReservations(r, contracts)
      || v == documentation || v == manual || v == ReviewReservation(r);
    if v.kind == IntegrationCheck && v.contract.Some? {
      MembersMean(r.impact.edges, v.contract.value, v.repositories);
    }
    SetMeans(r.repositories, v.repositories);
  }

  lemma MembersMean(edges: seq<Edge>, contract: string, members: set<Repository>)
    ensures
      members == Members(edges, contract) <==>
      forall m :: m in members <==> exists e :: e in edges && e.contract == contract && m in {e.source, e.target}
  {
    assert forall m :: m in Members(edges, contract) <==>
      exists e :: e in edges && e.contract == contract && m in {e.source, e.target};
  }

  lemma SetMeans(items: seq<Repository>, members: set<Repository>)
    ensures members == Set(items) <==> forall m :: m in members <==> m in items
  {
  }

  /** A review may depend on every other reservation, and nothing else on any. */
  lemma WhatAReservationMayDependOn(r: Request, d: Reservation, p: Reservation)
    ensures
      var budgets := FreshBudgets(r);
      d in budgets.prerequisites && p in budgets.prerequisites[d] <==>
      && d in budgets.reservations && d.kind == IndependentReview
      && p in budgets.reservations && p.kind != IndependentReview
  {
  }

  lemma ReservationsCount(r: Request)
    ensures |Reservations(r)| == |CheckReservations(r)| + 1
  {
  }

  // ----- replanning -----

  /** A chain of plans for one contract, each derived from the one before. */
  ghost predicate Chain(requests: seq<Request>, plans: seq<Plan>, rank: Obligation -> nat) {
    && |requests| == |plans| && |plans| > 0
    && Derive(requests[0], rank, None) == Success(plans[0])
    && forall i :: 0 < i < |plans| ==>
         && requests[i].contractDigest == requests[0].contractDigest
         && Derive(requests[i], rank, Some(plans[i - 1])) == Success(plans[i])
  }

  /** Along a chain of replans the budgets stay those of the first plan. */
  lemma {:induction false} ReplansKeepBudgets(
    requests: seq<Request>, plans: seq<Plan>, rank: Obligation -> nat, i: nat)
    requires Chain(requests, plans, rank) && i < |plans|
    ensures plans[i].budgets == FreshBudgets(requests[0])
    ensures plans[i].contractDigest == requests[0].contractDigest
    decreases i
  {
    hide FreshBudgets, Sort, Owed, Adequate, CoversCriteria;
    if i > 0 {
      ReplansKeepBudgets(requests, plans, rank, i - 1);
    }
  }

  // ----- the planner itself -----

  method RequireMembers(r: Request) returns (members: seq<Repository>)
    ensures members == RequiredMembers(r)
  {
    if Conservative(r) {
      return r.repositories;
    }
    if r.profile == Investigation && !r.impact.executable {
      return [];
    }
    members := [];
    for i := 0 to |r.repositories|
      invariant members == Keep(r.repositories[..i], Affected(r))
    {
      assert r.repositories[..i + 1][..i] == r.repositories[..i];
      if r.repositories[i] in Affected(r) {
        members := members + [r.repositories[i]];
      }
    }
    assert r.repositories[..|r.repositories|] == r.repositories;
  }

  method RequireEdges(r: Request) returns (edges: seq<Edge>)
    ensures edges == RequiredEdges(r)
  {
    if Conservative(r) {
      return r.impact.edges;
    }
    edges := [];
    for i := 0 to |r.impact.edges|
      invariant edges == AffectedOnly(r.impact.edges[..i])
    {
      assert r.impact.edges[..i + 1][..i] == r.impact.edges[..i];
      if r.impact.edges[i].affected {
        edges := edges + [r.impact.edges[i]];
      }
    }
    assert r.impact.edges[..|r.impact.edges|] == r.impact.edges;
  }

  type Groups = map<string, (set<Repository>, set<Criterion>)>

  ghost predicate Grouped(edges: seq<Edge>, order: seq<string>, groups: Groups) {
    && order == Contracts(edges) && groups.Keys == (set c | c in order)
    && forall c :: c in groups ==> groups[c] == (Members(edges, c), EdgeCriteria(edges, c))
  }

  function Join(groups: Groups, e: Edge): Groups {
    var known := if e.contract in groups then groups[e.contract] else ({}, {});
    groups[e.contract := (known.0 + {e.source, e.target}, known.1 + e.criteria)]
  }

  lemma GroupOfMore(edges: seq<Edge>, e: Edge, c: string)
    ensures Members(edges + [e], c) == Members(edges, c) + if e.contract == c then {e.source, e.target} else {}
    ensures EdgeCriteria(edges + [e], c) == EdgeCriteria(edges, c) + if e.contract == c then e.criteria else {}
  {
  }

  lemma NoGroup(edges: seq<Edge>, c: string)
    requires c !in Contracts(edges)
    ensures Members(edges, c) == {} && EdgeCriteria(edges, c) == {}
  {
    ContractsAreDistinct(edges);
    forall x | x in edges ensures x.contract != c {
    }
  }

  lemma JoinKeepsGrouped(edges: seq<Edge>, e: Edge, order: seq<string>, groups: Groups)
    requires Grouped(edges, order, groups)
    ensures Grouped(edges + [e], if e.contract in groups then order else order + [e.contract], Join(groups, e))
  {
    assert (edges + [e])[..|edges|] == edges;
    ContractsAreDistinct(edges);
    var groups' := Join(groups, e);
    hide Members, EdgeCriteria;
    forall c | c in groups'
      ensures groups'[c] == (Members(edges + [e], c), EdgeCriteria(edges + [e], c))
    {
      GroupOfMore(edges, e, c);
      if c !in groups {
        assert c !in order;
        NoGroup(edges, c);
      }
      assert groups'[c].0 == Members(edges + [e], c);
      assert groups'[c].1 == EdgeCriteria(edges + [e], c);
    }
  }

  lemma NothingGrouped()
    ensures Grouped([], [], map[])
  {
  }

  /** The edges by evidence contract: what each group joins and which criteria it carries. */
  method GroupEdges(edges: seq<Edge>) returns (order: seq<string>, groups: Groups)
    ensures Grouped(edges, order, groups)
  {
    order, groups := [], map[];
    NothingGrouped();
    hide Grouped;
    for i := 0 to |edges|
      invariant Grouped(edges[..i], order, groups)
    {
      JoinKeepsGrouped(edges[..i], edges[i], order, groups);
      assert edges[..i + 1] == edges[..i] + [edges[i]];
      if edges[i].contract !in groups {
        order := order + [edges[i].contract];
      }
      groups := Join(groups, edges[i]);
    }
    assert edges[..|edges|] == edges;
  }

  method OweObligations(r: Request) returns (obligations: seq<Obligation>)
    ensures obligations == Owed(r)
  {
    var members := RequireMembers(r);
    var edges := RequireEdges(r);
    var order, groups := GroupEdges(edges);
    var allowance := Allowance(r.profile);
    obligations := [];
    for i := 0 to |members|
      invariant obligations == RepositoryObligations(r, members[..i])
    {
      obligations := obligations + [Obligation(RepositoryCheck, r.criteria, {members[i]}, None, allowance, true, [])];
    }
    assert members[..|members|] == members;
    ghost var repositories := obligations;
    for i := 0 to |order|
      invariant obligations == repositories + IntegrationObligations(r, order[..i])
    {
      var c := order[i];
      assert c in order;
      var o := Obligation(IntegrationCheck, groups[c].1, groups[c].0, Some(c), allowance, true, []);
      assert IntegrationObligations(r, order[..i + 1]) == IntegrationObligations(r, order[..i]) + [o];
      obligations := obligations + [o];
    }
    assert order[..|order|] == order;
    if DocumentationRequired(r) {
      var scope := Set(if members == [] then r.repositories else members);
      obligations := obligations + [Obligation(DocumentationCheck, r.criteria, scope, None, allowance, true, [])];
    }
    if ManualRequired(r) {
      obligations := obligations + [Obligation(ManualEvidence, r.criteria, Set(members), None, allowance, false, [])];
    }
    assert obligations == Checks(r);
    if ReviewRequired(r) {
      obligations :=
        obligations + [Obligation(IndependentReview, r.criteria, Set(r.repositories), None, allowance, true,
          obligations)];
    }
  }

  method IsReserved(o: Obligation, obligations: seq<Obligation>, budgets: Budgets) returns (ok: bool)
    ensures ok <==> Reserved(o, obligations, budgets)
  {
    var own := First(budgets.reservations, o);
    if own.None? {
      return false;
    }
    for i := 0 to |o.prerequisites|
      invariant forall k :: 0 <= k < i ==> PrerequisiteReserved(o, o.prerequisites[k], obligations, budgets)
    {
      var p := o.prerequisites[i];
      assert p in o.prerequisites;
      if own.value !in budgets.prerequisites || p !in obligations {
        return false;
      }
      var needed := First(budgets.reservations, p);
      if needed.None? || needed.value !in budgets.prerequisites[own.value] {
        return false;
      }
    }
    return true;
  }

  method IsAdequate(obligations: seq<Obligation>, budgets: Budgets) returns (ok: bool)
    ensures ok <==> Adequate(obligations, budgets)
  {
    var verification, review := 0, 0;
    var uncovered := false;
    for i := 0 to |obligations|
      invariant review == Reviews(obligations[..i]) && verification == i - review
      invariant uncovered <==> exists k :: 0 <= k < i && !Reserved(obligations[k], obligations, budgets)
    {
      assert obligations[..i + 1][..i] == obligations[..i];
      var reserved := IsReserved(obligations[i], obligations, budgets);
      uncovered := uncovered || !reserved;
      if obligations[i].kind == IndependentReview {
        review := review + 1;
      } else {
        verification := verification + 1;
      }
    }
    assert obligations[..|obligations|] == obligations;
    ok := !uncovered && verification <= budgets.verification && review <= budgets.review;
  }

  method DeriveAssurancePlan(r: Request, rank: Obligation -> nat, previous: Option<Plan>)
    returns (result: Result<Plan, Error>)
    ensures result == Derive(r, rank, previous)
    ensures result.Success? ==> OwesWhatIsDue(r, result.value.obligations) && Secured(result.value)
  {
    hide OwesWhatIsDue, Secured, Owed, Sort, FreshBudgets, Adequate, Validates, CoversCriteria;
    WhatAPlanOwes(r, rank);
    result := ComputePlan(r, rank, previous);
    if result.Success? {
      DerivedPlansAreSecured(r, rank, previous);
    }
  }

  method ComputePlan(r: Request, rank: Obligation -> nat, previous: Option<Plan>)
    returns (result: Result<Plan, Error>)
    ensures result == Derive(r, rank, previous)
  {
    hide Owed, Sort, FreshBudgets, Adequate, Validates, CoversCriteria;
    var owed := OweObligations(r);
    var obligations := Sort(owed, rank);
    if obligations == [] || |obligations| > MAX_ASSURANCE_OBLIGATIONS {
      return Failure(ASSURANCE_INVALID);
    }
    if !CoversCriteria(obligations, r.criteria) {
      return Failure(ASSURANCE_INVALID);
    }
    var budgets := FreshBudgets(r);
    var bound := false;
    if previous.Some? {
      if !Validates(previous.value) {
        return Failure(ASSURANCE_INVALID);
      }
      bound := previous.value.contractDigest == r.contractDigest;
    }
    if !bound && budgets.total > MAX_WORKFLOW_ACTIONS {
      return Failure(ASSURANCE_BUDGET_INVALID);
    }
    if bound {
      budgets := previous.value.budgets;
    }
    var adequate := IsAdequate(obligations, budgets);
    if !adequate {
      return Failure(ASSURANCE_BUDGET_INVALID);
    }
    if budgets.total < budgets.used {
      return Failure(ASSURANCE_BUDGET_INVALID);
    }
    return Success(Plan(r.contractDigest, obligations, budgets, budgets.total - budgets.used));
  }

  // ----- what state each obligation is in -----

  datatype State = Blocked | Outstanding | Satisfied | Reused | Waived | Exhausted

  datatype Execution = Execution(obligation: Obligation, passed: bool)

  datatype Progress = Progress(executions: seq<Execution>, waived: set<Obligation>, reused: set<Obligation>)

  function Attempts(executions: seq<Execution>, o: Obligation): nat {
    if executions == [] then 0
    else
      Attempts(executions[..|executions| - 1], o) + if executions[|executions| - 1].obligation == o then 1 else 0
  }

  predicate Passed(executions: seq<Execution>, o: Obligation) {
    exists i :: 0 <= i < |executions| && executions[i].obligation == o && executions[i].passed
  }

  predicate Done(state: State) {
    state in {Satisfied, Reused, Waived}
  }

  /** The state of an obligation, by recursion over what it depends on. */
  function StateOf(o: Obligation, obligations: seq<Obligation>, progress: Progress): State
    decreases o
  {
    if o in progress.waived then Waived
    else if o in progress.reused then Reused
    else if Passed(progress.executions, o) then Satisfied
    else if Attempts(progress.executions, o) >= o.allowance then Exhausted
    else if
      exists p :: p in o.prerequisites && (p !in obligations || !Done(StateOf(p, obligations, progress)))
    then Blocked
    else Outstanding
  }

  lemma {:induction false} AttemptsAreCounted(executions: seq<Execution>, o: Obligation)
    ensures Attempts(executions, o) == |set k | 0 <= k < |executions| && executions[k].obligation == o|
    decreases |executions|
  {
    if executions != [] {
      var last := |executions| - 1;
      AttemptsAreCounted(executions[..last], o);
      var before := set k | 0 <= k < last && executions[..last][k].obligation == o;
      var now := set k | 0 <= k < |executions| && executions[k].obligation == o;
      assert now == before + if executions[last].obligation == o then {last} else {};
    }
  }

  /** When an obligation is in which state: a waiver first, a fresh need last. */
  lemma StatesMean(o: Obligation, obligations: seq<Obligation>, progress: Progress)
    requires Ordered(obligations) && o in obligations
    ensures
      var state := StateOf(o, obligations, progress);
      var settled := o in progress.waived || o in progress.reused;
      var passed := exists i :: 0 <= i < |progress.executions| && progress.executions[i] == Execution(o, true);
      var tried := |set k | 0 <= k < |progress.executions| && progress.executions[k].obligation == o|;
      var ready := forall p :: p in o.prerequisites ==> StateOf(p, obligations, progress) in {Satisfied, Reused, Waived};
      && (state == Waived <==> o in progress.waived)
      && (state == Reused <==> o in progress.reused && o !in progress.waived)
      && (state == Satisfied <==> !settled && passed)
      && (state == Exhausted <==> !settled && !passed && tried >= o.allowance)
      && (state == Outstanding <==> !settled && !passed && tried < o.allowance && ready)
      && (state == Blocked <==> !settled && !passed && tried < o.allowance && !ready)
  {
    AttemptsAreCounted(progress.executions, o);
    var i :| 0 <= i < |obligations| && obligations[i] == o;
    forall p | p in o.prerequisites ensures p in obligations {
      assert p in obligations[..i];
    }
    if i :| 0 <= i < |progress.executions| && progress.executions[i].obligation == o && progress.executions[i].passed {
      assert progress.executions[i] == Execution(o, true);
    }
    hide Attempts;
  }

  /** The dictionary of attempts by obligation. */
  method CountAttempts(executions: seq<Execution>, o: Obligation) returns (attempts: nat, passed: bool)
    ensures attempts == Attempts(executions, o) && passed == Passed(executions, o)
  {
    attempts, passed := 0, false;
    for i := 0 to |executions|
      invariant attempts == Attempts(executions[..i], o)
      invariant passed <==> exists k :: 0 <= k < i && executions[k].obligation == o && executions[k].passed
    {
      assert executions[..i + 1][..i] == executions[..i];
      if executions[i].obligation == o {
        attempts := attempts + 1;
        passed := passed || executions[i].passed;
      }
    }
    assert executions[..|executions|] == executions;
  }

  /** The state already computed for `p`, or blocked. */
  method Lookup(p: Obligation, obligations: seq<Obligation>, states: seq<State>) returns (state: State)
    requires |states| <= |obligations|
    ensures p !in obligations[..|states|] ==> state == Blocked
    ensures p in obligations[..|states|] ==> exists k :: 0 <= k < |states| && obligations[k] == p && states[k] == state
  {
    for k := 0 to |states|
      invariant p !in obligations[..k]
    {
      if obligations[k] == p {
        return states[k];
      }
      assert obligations[..k + 1] == obligations[..k] + [obligations[k]];
    }
    return Blocked;
  }

  /** `obligation_states`: one pass over a plan, which the canonical order makes equal to the recursion. */
  method ObligationStates(plan: Plan, progress: Progress) returns (r: Result<seq<State>, Error>)
    ensures r.Success? <==> Validates(plan)
    ensures r.Success? ==> |r.value| == |plan.obligations|
    ensures r.Success? && Ordered(plan.obligations) ==>
      forall i :: 0 <= i < |r.value| ==> r.value[i] == StateOf(plan.obligations[i], plan.obligations, progress)
  {
    hide Validates, StateOf, Ordered;
    if !Validates(plan) {
      return Failure(ASSURANCE_INVALID);
    }
    var os := plan.obligations;
    var states: seq<State> := [];
    for i := 0 to |os|
      invariant |states| == i
      invariant Ordered(os) ==> forall k :: 0 <= k < i ==> states[k] == StateOf(os[k], os, progress)
    {
      var state := OneState(os, i, progress, states);
      states := states + [state];
    }
    return Success(states);
  }

  method OneState(os: seq<Obligation>, i: nat, progress: Progress, states: seq<State>) returns (state: State)
    requires i < |os| && |states| == i
    requires Ordered(os) ==> forall k :: 0 <= k < i ==> states[k] == StateOf(os[k], os, progress)
    ensures Ordered(os) ==> state == StateOf(os[i], os, progress)
  {
    var o := os[i];
    var attempts, passed := CountAttempts(progress.executions, o);
    if o in progress.waived {
      return Waived;
    }
    if o in progress.reused {
      return Reused;
    }
    if passed {
      return Satisfied;
    }
    if attempts >= o.allowance {
      return Exhausted;
    }
    var blocked := false;
    for j := 0 to |o.prerequisites|
      invariant Ordered(os) ==>
        (blocked <==> exists k :: 0 <= k < j && !Done(StateOf(o.prerequisites[k], os, progress)))
    {
      var p := o.prerequisites[j];
      assert p in o.prerequisites;
      var s := Lookup(p, os, states);
      assert Ordered(os) ==> p in os[..i];
      if !Done(s) {
        blocked := true;
      }
    }
    assert forall p :: p in os[..i] ==> p in os;
    return if blocked then Blocked else Outstanding;
  }

  // ----- progress -----

  /** Blocked, through some chain of prerequisites, by one that used up its allowance. */
  predicate BlockedByExhausted(o: Obligation, obligations: seq<Obligation>, progress: Progress)
    decreases o
  {
    StateOf(o, obligations, progress) == Blocked &&
    exists p :: p in o.prerequisites &&
                (StateOf(p, obligations, progress) == Exhausted || BlockedByExhausted(p, obligations, progress))
  }

  predicate AtRest(o: Obligation, obligations: seq<Obligation>, progress: Progress) {
    || Done(StateOf(o, obligations, progress))
    || StateOf(o, obligations, progress) == Exhausted
    || BlockedByExhausted(o, obligations, progress)
  }

  /** With nothing outstanding, every obligation is at rest for a reason that can be named. */
  lemma {:induction false} NothingOutstanding(o: Obligation, obligations: seq<Obligation>, progress: Progress)
    requires Ordered(obligations) && o in obligations
    requires forall x :: x in obligations ==> StateOf(x, obligations, progress) != Outstanding
    ensures AtRest(o, obligations, progress)
    decreases o
  {
    if StateOf(o, obligations, progress) == Blocked {
      var p :| p in o.prerequisites && (p !in obligations || !Done(StateOf(p, obligations, progress)));
      var i :| 0 <= i < |obligations| && obligations[i] == o;
      assert p in obligations[..i];
      NothingOutstanding(p, obligations, progress);
    }
  }

  /** `next_obligation`: the first outstanding one; none only when all are at rest. */
  method NextObligation(plan: Plan, progress: Progress) returns (r: Result<Option<Obligation>, Error>)
    requires Ordered(plan.obligations)
    ensures r.Success? <==> Validates(plan)
    ensures r.Success? && r.value.Some? ==>
      r.value.value in plan.obligations && StateOf(r.value.value, plan.obligations, progress) == Outstanding
    ensures r.Success? && r.value.Some? ==>
      exists i :: 0 <= i < |plan.obligations| && plan.obligations[i] == r.value.value
                  && forall k :: 0 <= k < i ==> StateOf(plan.obligations[k], plan.obligations, progress) != Outstanding
    ensures r.Success? && r.value.None? ==>
      forall o :: o in plan.obligations ==> AtRest(o, plan.obligations, progress)
  {
    hide Validates, StateOf, AtRest, Ordered;
    var states :- ObligationStates(plan, progress);
    for i := 0 to |states|
      invariant forall k :: 0 <= k < i ==> states[k] != Outstanding
    {
      if states[i] == Outstanding {
        return Success(Some(plan.obligations[i]));
      }
    }
    forall o | o in plan.obligations ensures AtRest(o, plan.obligations, progress) {
      forall x | x in plan.obligations ensures StateOf(x, plan.obligations, progress) != Outstanding {
        var k :| 0 <= k < |states| && plan.obligations[k] == x;
      }
      NothingOutstanding(o, plan.obligations, progress);
    }
    return Success(None);
  }

  /** Executions that may still be made. */
  function Units(obligations: seq<Obligation>, executions: seq<Execution>): nat {
    if obligations == [] then 0
    else
      var o := obligations[|obligations| - 1];
      Units(obligations[..|obligations| - 1], executions) +
      if Attempts(executions, o) < o.allowance then o.allowance - Attempts(executions, o) else 0
  }

  /** Executing an obligation that has allowance left uses exactly one unit. */
  lemma {:induction false} ExecutionUsesAUnit(obligations: seq<Obligation>, executions: seq<Execution>, e: Execution)
    requires Distinct(obligations)
    requires Attempts(executions, e.obligation) < e.obligation.allowance
    ensures Units(obligations, executions + [e]) ==
            Units(obligations, executions) - if e.obligation in obligations then 1 else 0
    decreases |obligations|
  {
    assert (executions + [e])[..|executions|] == executions;
    if obligations != [] {
      var last := |obligations| - 1;
      ExecutionUsesAUnit(obligations[..last], executions, e);
      assert obligations == obligations[..last] + [obligations[last]];
      assert obligations[last] !in obligations[..last];
    }
  }

  /**
   Executing whatever `next_obligation` returns, with any verdicts, ends within
   the units left, and ends with every obligation at rest.
   */
  method Drive(plan: Plan, start: Progress, verdict: nat -> bool) returns (progress: Progress)
    requires Validates(plan) && Ordered(plan.obligations)
    ensures progress.waived == start.waived && progress.reused == start.reused
    ensures start.executions <= progress.executions
    ensures |progress.executions| - |start.executions| <= Units(plan.obligations, start.executions)
    ensures forall o :: o in plan.obligations ==> AtRest(o, plan.obligations, progress)
  {
    hide StateOf, AtRest, Ordered, Units;
    progress := start;
    while true
      invariant progress.waived == start.waived && progress.reused == start.reused
      invariant start.executions <= progress.executions
      invariant |progress.executions| - |start.executions| + Units(plan.obligations, progress.executions)
             == Units(plan.obligations, start.executions)
      decreases Units(plan.obligations, progress.executions)
    {
      var next := NextObligation(plan, progress);
      if next.value.None? {
        return;
      }
      var o := next.value.value;
      var e := Execution(o, verdict(|progress.executions|));
      OutstandingHasAllowance(o, plan.obligations, progress);
      ExecutionUsesAUnit(plan.obligations, progress.executions, e);
      progress := progress.(executions := progress.executions + [e]);
    }
  }

  lemma OutstandingHasAllowance(o: Obligation, obligations: seq<Obligation>, progress: Progress)
    requires StateOf(o, obligations, progress) == Outstanding
    ensures Attempts(progress.executions, o) < o.allowance
  {
  }

  /** Before anything ran, the units are the sum of the allowances. */
  function Allowances(obligations: seq<Obligation>): nat {
    if obligations == [] then 0 else Allowances(obligations[..|obligations| - 1]) + obligations[|obligations| - 1].allowance
  }

  lemma {:induction false} UnitsAtTheStart(obligations: seq<Obligation>)
    ensures Units(obligations, []) == Allowances(obligations)
    decreases |obligations|
  {
    if obligations != [] {
      UnitsAtTheStart(obligations[..|obligations| - 1]);
    }
  }
}
