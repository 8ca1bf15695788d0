/** The arbitration guardrail (mobility_agent/agents/orchestrator.py:70-193, 225-418,
    421-598). Proposals, opinions and the model's decision are arbitrary; so is the verdict
    of the legality check on a request, which is fixed while one council runs. */
module Arbitration {
  import opened Json
  import opened Channels

  /** What the legality check is asked about. */
  datatype Request = Request(family: string, target: Option<string>, params: Params, submit: bool, wait: bool)

  datatype Proposal = Proposal(id: string, request: Request, risk: real, cost: real)

  /** A selected action; the texts the model may add to it are in `notes`. */
  datatype Action = Action(request: Request, source: Option<string>, notes: string)

  datatype Stance = Support | Objection | Remark
  datatype Critique = Critique(proposalId: string, stance: Stance)
  datatype Preference = Preference(proposalId: string, strength: real)

  /** The parsed decision of the model. */
  datatype Reply = Reply(selectedId: string, action: Option<Action>, noop: bool, waiting: bool, ready: bool)

  /** What the guardrail reads of the state. */
  datatype Standing = Standing(
    failingCapability: string, latestFailed: bool, retriesUsed: int, retryBudget: int,
    waitingExternal: bool, allTasksResolved: bool)

  datatype Desk = Desk(render: Rendering, legal: Request -> bool, standing: Standing)

  datatype Record = Record(selectedId: string, action: Option<Action>, noop: bool, waiting: bool, ready: bool)

  /** The record of the arbitration, or the exception it ends with. */
  datatype Outcome = Recorded(record: Record) | Raised

  // Canonical proposals and actions

  const LOCAL_FAMILIES: set<string> := {
    "run_capability", "retry_capability", "rerun_from_capability", "refine_sampling", "revalidate_result",
    "finalize_material", "abort_material", "skip_channel", "invalidate_channel"}

  /** A request of a local family waits for nobody, and its channels are canonical. */
  function CanonicalRequest(render: Rendering, r: Request): Option<Request> {
    if r.family !in LOCAL_FAMILIES then Some(r)
    else match Canonical(render, r.family, r.params)
      case None => None
      case Some(params) => Some(r.(params := params, submit := false, wait := false))
  }

  function CanonicalProposals(render: Rendering, ps: seq<Proposal>): Option<seq<Proposal>> {
    if ps == [] then Some([])
    else match (CanonicalRequest(render, ps[0].request), CanonicalProposals(render, ps[1..]))
      case (Some(r), Some(rest)) => Some([ps[0].(request := r)] + rest)
      case _ => None
  }

  /** _selected_action_from_proposal: the parameters are canonicalized once more. */
  function ActionOf(render: Rendering, p: Proposal): Option<Action> {
    match Canonical(render, p.request.family, p.request.params)
    case None => None
    case Some(params) => Some(Action(p.request.(params := params), Some(p.id), ""))
  }

  // Weighing the proposals

  function CountStance(critiques: seq<Critique>, id: string, stance: Stance): nat {
    if critiques == [] then 0
    else
      var so := CountStance(critiques[..|critiques| - 1], id, stance);
      if critiques[|critiques| - 1] == Critique(id, stance) then so + 1 else so
  }

  function Strength(preferences: seq<Preference>, id: string): real {
    if preferences == [] then 0.0
    else
      var so := Strength(preferences[..|preferences| - 1], id);
      if preferences[|preferences| - 1].proposalId == id then so + preferences[|preferences| - 1].strength else so
  }

  /** The sort key of a legal proposal; smaller is better. */
  datatype Rank = Rank(objections: int, support: int, strength: real, risk: real, cost: real)

  predicate Better(a: Rank, b: Rank) {
    if a.objections != b.objections then a.objections < b.objections
    else if a.support != b.support then a.support < b.support
    else if a.strength != b.strength then a.strength < b.strength
    else if a.risk != b.risk then a.risk < b.risk
    else a.cost < b.cost
  }

  function RankOf(p: Proposal, critiques: seq<Critique>, preferences: seq<Preference>): Rank {
    Rank(CountStance(critiques, p.id, Objection), 0 - CountStance(critiques, p.id, Support),
         0.0 - Strength(preferences, p.id), p.risk, p.cost)
  }

  /** The position of the first proposal that no other outranks: the head of the stable
      sort. */
  ghost predicate IsPreferred(ps: seq<Proposal>, critiques: seq<Critique>, preferences: seq<Preference>, i: nat) {
    && i < |ps|
    && (forall j :: 0 <= j < |ps| ==>
          !Better(RankOf(ps[j], critiques, preferences), RankOf(ps[i], critiques, preferences)))
    && (forall j :: 0 <= j < i ==> Better(RankOf(ps[i], critiques, preferences), RankOf(ps[j], critiques, preferences)))
  }

  function PreferredIndex(ps: seq<Proposal>, critiques: seq<Critique>, preferences: seq<Preference>): (i: nat)
    requires ps != []
    ensures IsPreferred(ps, critiques, preferences, i)
  {
    if |ps| == 1 then 0
    else
      var so := PreferredIndex(ps[..|ps| - 1], critiques, preferences);
      assert forall j :: 0 <= j < |ps| - 1 ==> ps[..|ps| - 1][j] == ps[j];
      if Better(RankOf(ps[|ps| - 1], critiques, preferences), RankOf(ps[so], critiques, preferences))
        then |ps| - 1 else so
  }

  method Tally(critiques: seq<Critique>, preferences: seq<Preference>)
    returns (objections: map<string, nat>, supports: map<string, nat>, strengths: map<string, real>)
    ensures forall id :: CountStance(critiques, id, Objection) == if id in objections then objections[id] else 0
    ensures forall id :: CountStance(critiques, id, Support) == if id in supports then supports[id] else 0
    ensures forall id :: Strength(preferences, id) == if id in strengths then strengths[id] else 0.0
  {
    objections, supports, strengths := map[], map[], map[];
    for i := 0 to |critiques|
      invariant forall id ::
        CountStance(critiques[..i], id, Objection) == if id in objections then objections[id] else 0
      invariant forall id :: CountStance(critiques[..i], id, Support) == if id in supports then supports[id] else 0
    {
      assert critiques[..i + 1][..i] == critiques[..i];
      var id := critiques[i].proposalId;
      if critiques[i].stance.Support? {
        supports := supports[id := (if id in supports then supports[id] else 0) + 1];
      } else if critiques[i].stance.Objection? {
        objections := objections[id := (if id in objections then objections[id] else 0) + 1];
      }
    }
    assert critiques[..|critiques|] == critiques;
    for i := 0 to |preferences|
      invariant forall id :: Strength(preferences[..i], id) == if id in strengths then strengths[id] else 0.0
    {
      assert preferences[..i + 1][..i] == preferences[..i];
      var id := preferences[i].proposalId;
      strengths := strengths[id := (if id in strengths then strengths[id] else 0.0) + preferences[i].strength];
    }
    assert preferences[..|preferences|] == preferences;
  }

  // The guardrail

  function EffectiveBudget(budget: int): int {
    if budget == 0 then 2 else budget
  }

  predicate BudgetExhausted(s: Standing) {
    && s.failingCapability != "" && s.latestFailed
    && EffectiveBudget(s.retryBudget) > 0 && s.retriesUsed >= EffectiveBudget(s.retryBudget)
  }

  function Noop(waiting: bool, ready: bool): Record {
    Record("", None, true, waiting, ready)
  }

  /** Without a proposal to choose from the record only says what is waited for. */
  function NothingToChoose(s: Standing): Record {
    Noop(s.waitingExternal, !s.waitingExternal && s.allTasksResolved)
  }

  datatype Guarded =
    | Closed(record: Record)
    | Open(viable: seq<Proposal>, preferred: string)
    | GuardRaised

  function Viable(legal: Request -> bool, ps: seq<Proposal>): seq<Proposal> {
    if ps == [] then []
    else if legal(ps[0].request) then [ps[0]] + Viable(legal, ps[1..])
    else Viable(legal, ps[1..])
  }

  /** _guardrail_arbitration on proposals that are canonical already; it canonicalizes them a
      second time before it checks them. */
  function Guard(desk: Desk, ps: seq<Proposal>, critiques: seq<Critique>, preferences: seq<Preference>): Guarded {
    if BudgetExhausted(desk.standing) then Closed(Noop(false, false))
    else if ps == [] then Closed(NothingToChoose(desk.standing))
    else match CanonicalProposals(desk.render, ps)
      case None => GuardRaised
      case Some(canonical) =>
        var viable := Viable(desk.legal, canonical);
        if viable == [] then Closed(NothingToChoose(desk.standing))
        else Open(viable, viable[PreferredIndex(viable, critiques, preferences)].id)
  }

  function Ids(ps: seq<Proposal>): set<string> {
    set p | p in ps :: p.id
  }

  // The decision

  predicate IsOverride(id: string) {
    "ORCHESTRATOR_OVERRIDE:" <= id
  }

  /** The proposal id the reply names, directly or through its action. */
  function NamedId(reply: Reply): string {
    var id := Strip(reply.selectedId);
    if id == "" && reply.action.Some? then Strip(SourceOf(reply.action.value)) else id
  }

  function SourceOf(a: Action): string {
    if a.source.Some? then a.source.value else ""
  }

  /** An explicit override that is legal; an illegal one is ignored. */
  function LegalOverride(desk: Desk, reply: Reply): Option<Option<Action>> {
    if reply.action.None? || !IsOverride(NamedId(reply)) then Some(None)
    else match CanonicalRequest(desk.render, reply.action.value.request)
      case None => None
      case Some(r) => Some(if desk.legal(r) then Some(reply.action.value.(request := r)) else None)
  }

  /** The id the choice settles on; None is the exception for an unknown one. */
  function SettledId(override: bool, reply: Reply, legalIds: set<string>, preferred: string): Option<string> {
    var fallback := Strip(preferred);
    var named := NamedId(reply);
    var id :=
      if override || named != "" then named
      else if fallback in legalIds then fallback
      else if |legalIds| == 1 then Only(legalIds)
      else named;
    if override || reply.action.None? || id in legalIds then Some(id)
    else if fallback in legalIds then Some(fallback)
    else None
  }

  function Only(ids: set<string>): string
    requires |ids| == 1
  {
    SingletonMember(ids);
    var id :| id in ids;
    id
  }

  lemma SingletonMember(ids: set<string>)
    requires |ids| == 1
    ensures exists id :: ids == {id}
    ensures forall a, b :: a in ids && b in ids ==> a == b
  {
    var id :| id in ids;
    assert |ids - {id}| == 0;
    assert ids == {id};
  }

  function FirstWithId(ps: seq<Proposal>, id: string): (p: Proposal)
    requires exists q :: q in ps && q.id == id
    ensures p in ps && p.id == id
  {
    if ps[0].id == id then ps[0] else FirstWithId(ps[1..], id)
  }

  /** _canonicalize_selected_action: what is executed is the proposal's, only the texts are
      the model's. Reading the model's own parameters may raise. */
  function FromProposal(desk: Desk, p: Proposal, reply: Reply, id: string): Option<Action> {
    match ActionOf(desk.render, p)
    case None => None
    case Some(a) =>
      if reply.action.Some? && Strip(SourceOf(reply.action.value)) == id then
        match Canonical(desk.render, p.request.family, reply.action.value.request.params)
        case None => None
        case Some(_) => Some(a.(notes := reply.action.value.notes))
      else Some(a)
  }

  function Conclude(id: string, action: Option<Action>, reply: Reply): Record {
    match action
    case Some(a) => Record(if id != "" then id else SourceOf(a), action, false, a.request.wait, false)
    case None => Record(id, None, reply.noop, reply.waiting, reply.ready)
  }

  /** The choice among the viable proposals, made for the canonical ones. */
  function Choose(desk: Desk, ps: seq<Proposal>, legalIds: set<string>, preferred: string, reply: Reply): Outcome
    requires forall id :: id in legalIds ==> exists q :: q in ps && q.id == id
  {
    match LegalOverride(desk, reply)
    case None => Raised
    case Some(override) =>
      match SettledId(override.Some?, reply, legalIds, preferred)
      case None => Raised
      case Some(id) =>
        if id in legalIds then
          match FromProposal(desk, FirstWithId(ps, id), reply, id)
          case None => Raised
          case Some(a) => Recorded(Conclude(id, Some(a), reply))
        else Recorded(Conclude(id, override, reply))
  }

  lemma {:induction false} ViableIdsKnown(render: Rendering, legal: Request -> bool, ps: seq<Proposal>, id: string)
    requires CanonicalProposals(render, ps).Some?
    requires id in Ids(Viable(legal, CanonicalProposals(render, ps).value))
    ensures exists q :: q in ps && q.id == id
  {
    if ps != [] {
      var canonical := CanonicalProposals(render, ps).value;
      if canonical[0].id == id {
        assert ps[0] in ps && ps[0].id == id;
      } else {
        var p :| p in Viable(legal, canonical) && p.id == id;
        assert canonical[1..] == CanonicalProposals(render, ps[1..]).value;
        assert p in Viable(legal, canonical[1..]);
        ViableIdsKnown(render, legal, ps[1..], id);
      }
    }
  }

  /** The specification of arbitrate. */
  function Arbitrated(desk: Desk, proposals: seq<Proposal>, critiques: seq<Critique>, preferences: seq<Preference>,
      reply: Reply): Outcome {
    match CanonicalProposals(desk.render, proposals)
    case None => Raised
    case Some(ps) =>
      match Guard(desk, ps, critiques, preferences)
      case Closed(record) => Recorded(record)
      case GuardRaised => Raised
      case Open(viable, preferred) =>
        assert forall id :: id in Ids(viable) ==> exists q :: q in ps && q.id == id by {
          forall id | id in Ids(viable)
            ensures exists q :: q in ps && q.id == id
          {
            ViableIdsKnown(desk.render, desk.legal, ps, id);
          }
        }
        Choose(desk, ps, Ids(viable), preferred, reply)
  }

  // The methods

  function Prepended(done: seq<Proposal>, rest: Option<seq<Proposal>>): Option<seq<Proposal>> {
    match rest
    case None => None
    case Some(ps) => Some(done + ps)
  }

  method CanonicalizeAll(render: Rendering, ps: seq<Proposal>) returns (canonical: Option<seq<Proposal>>)
    ensures canonical == CanonicalProposals(render, ps)
  {
    var done: seq<Proposal> := [];
    ghost var all := CanonicalProposals(render, ps);
    assert ps[0..] == ps && (all.Some? ==> [] + all.value == all.value);
    for i := 0 to |ps|
      invariant CanonicalProposals(render, ps) == Prepended(done, CanonicalProposals(render, ps[i..]))
    {
      var r := CanonicalRequest(render, ps[i].request);
      assert ps[i..][0] == ps[i] && ps[i..][1..] == ps[i + 1..];
      if r.None? {
        return None;
      }
      var p := ps[i].(request := r.value);
      assert forall rest: seq<Proposal> :: done + ([p] + rest) == done + [p] + rest;
      done := done + [p];
    }
    assert ps[|ps|..] == [] && done + [] == done;
    canonical := Some(done);
  }

  method FilterLegal(legal: Request -> bool, ps: seq<Proposal>) returns (viable: seq<Proposal>)
    ensures viable == Viable(legal, ps)
  {
    viable := [];
    for i := 0 to |ps|
      invariant viable + Viable(legal, ps[i..]) == Viable(legal, ps)
    {
      assert ps[i..][1..] == ps[i + 1..];
      if legal(ps[i].request) {
        viable := viable + [ps[i]];
      }
    }
  }

  method Guardrail(desk: Desk, ps: seq<Proposal>, critiques: seq<Critique>, preferences: seq<Preference>)
    returns (guarded: Guarded)
    ensures guarded == Guard(desk, ps, critiques, preferences)
  {
    if BudgetExhausted(desk.standing) {
      return Closed(Noop(false, false));
    }
    if ps == [] {
      return Closed(NothingToChoose(desk.standing));
    }
    var canonical := CanonicalizeAll(desk.render, ps);
    if canonical.None? {
      return GuardRaised;
    }
    var viable := FilterLegal(desk.legal, canonical.value);
    if viable == [] {
      return Closed(NothingToChoose(desk.standing));
    }
    var best := PickPreferred(viable, critiques, preferences);
    guarded := Open(viable, viable[best].id);
  }

  function Tallied(p: Proposal, objections: map<string, nat>, supports: map<string, nat>,
      strengths: map<string, real>): Rank {
    var against: int := if p.id in objections then objections[p.id] else 0;
    var support: int := if p.id in supports then supports[p.id] else 0;
    var strength: real := if p.id in strengths then strengths[p.id] else 0.0;
    Rank(against, -support, -strength, p.risk, p.cost)
  }

  method PickPreferred(viable: seq<Proposal>, critiques: seq<Critique>, preferences: seq<Preference>)
      returns (best: nat)
    requires viable != []
    ensures best == PreferredIndex(viable, critiques, preferences)
  {
    var objections, supports, strengths := Tally(critiques, preferences);
    ghost var ranked := forall p :: Tallied(p, objections, supports, strengths) == RankOf(p, critiques, preferences);
    assert ranked;
    best := 0;
    assert viable[..1] == [viable[0]];
    for i := 1 to |viable|
      invariant best < i && best == PreferredIndex(viable[..i], critiques, preferences)
    {
      assert viable[..i + 1][..i] == viable[..i];
      var challenger := Tallied(viable[i], objections, supports, strengths);
      if Better(challenger, Tallied(viable[best], objections, supports, strengths)) {
        best := i;
      }
    }
    assert viable[..|viable|] == viable;
  }

  method Arbitrate(desk: Desk, proposals: seq<Proposal>, critiques: seq<Critique>, preferences: seq<Preference>,
      reply: Reply)
    returns (outcome: Outcome)
    ensures outcome == Arbitrated(desk, proposals, critiques, preferences, reply)
  {
    var normalized := CanonicalizeAll(desk.render, proposals);
    if normalized.None? {
      return Raised;
    }
    var guarded := Guardrail(desk, normalized.value, critiques, preferences);
    match guarded
    case Closed(record) =>
      outcome := Recorded(record);
    case GuardRaised =>
      outcome := Raised;
    case Open(viable, preferred) =>
      forall id | id in Ids(viable)
        ensures exists q :: q in normalized.value && q.id == id
      {
        ViableIdsKnown(desk.render, desk.legal, normalized.value, id);
      }
      outcome := Decide(desk, normalized.value, Ids(viable), preferred, reply);
  }

  /** The decision on the model's reply: an override, a named proposal, or the fallback. */
  method Decide(desk: Desk, ps: seq<Proposal>, legalIds: set<string>, preferred: string, reply: Reply)
      returns (outcome: Outcome)
    requires forall id :: id in legalIds ==> exists q :: q in ps && q.id == id
    ensures outcome == Choose(desk, ps, legalIds, preferred, reply)
  {
    var fallback := Strip(preferred);
    var selectedProposalId := Strip(reply.selectedId);
    if selectedProposalId == "" && reply.action.Some? {
      selectedProposalId := Strip(SourceOf(reply.action.value));
    }
    var selectedAction: Option<Action> := None;
    if reply.action.Some? && IsOverride(selectedProposalId) {
      var request := CanonicalRequest(desk.render, reply.action.value.request);
      if request.None? {
        return Raised;
      }
      if desk.legal(request.value) {
        selectedAction := Some(reply.action.value.(request := request.value));
      }
    }
    assert LegalOverride(desk, reply) == Some(selectedAction);
    if selectedAction.None? && selectedProposalId == "" {
      if fallback in legalIds {
        selectedProposalId := fallback;
      } else if |legalIds| == 1 {
        selectedProposalId := Only(legalIds);
      }
    }
    if selectedAction.None? && reply.action.Some? && selectedProposalId !in legalIds {
      if fallback !in legalIds {
        return Raised;
      }
      selectedProposalId := fallback;
    }
    assert SettledId(selectedAction.Some?, reply, legalIds, preferred) == Some(selectedProposalId);
    if selectedProposalId in legalIds {
      selectedAction := FromProposal(desk, FirstWithId(ps, selectedProposalId), reply, selectedProposalId);
      if selectedAction.None? {
        return Raised;
      }
    }
    outcome := Recorded(Conclude(selectedProposalId, selectedAction, reply));
  }

  // Which proposal is preferred

  /** The critiques that take a stance on a proposal, by their position. */
  ghost function Taking(critiques: seq<Critique>, id: string, stance: Stance): set<nat> {
    set i: nat | i < |critiques| && critiques[i].proposalId == id && critiques[i].stance == stance
  }

  lemma {:induction false} StancesCount(critiques: seq<Critique>, id: string, stance: Stance)
    ensures CountStance(critiques, id, stance) == |Taking(critiques, id, stance)|
  {
    if critiques != [] {
      StancesCount(critiques[..|critiques| - 1], id, stance);
      TakingGrows(critiques, id, stance);
    }
  }

  lemma TakingGrows(critiques: seq<Critique>, id: string, stance: Stance)
    requires critiques != []
    ensures var last := |critiques| - 1;
      |Taking(critiques, id, stance)|
      == |Taking(critiques[..last], id, stance)|
         + if critiques[last].proposalId == id && critiques[last].stance == stance then 1 else 0
  {
    var last, rest := |critiques| - 1, critiques[..|critiques| - 1];
    var before, after := Taking(rest, id, stance), Taking(critiques, id, stance);
    var here := if critiques[last].proposalId == id && critiques[last].stance == stance then {last} else {};
    forall i: nat
      ensures i in after <==> i in before + here
    {
      if i < last {
        assert rest[i] == critiques[i];
      }
    }
    assert after == before + here && before !! here;
  }

  /** The strengths given to a proposal add up, in whatever parts they are taken. */
  lemma {:induction false} StrengthsAdd(a: seq<Preference>, b: seq<Preference>, id: string)
    ensures Strength(a + b, id) == Strength(a, id) + Strength(b, id)
    ensures |a| == 1 ==> Strength(a, id) == if a[0].proposalId == id then a[0].strength else 0.0
  {
    if b == [] {
      assert a + b == a;
    } else {
      assert (a + b)[..|a + b| - 1] == a + b[..|b| - 1];
      StrengthsAdd(a, b[..|b| - 1], id);
    }
  }

  /** The order of proposals in words: fewer objections, then more support, then more summed
      strength, then less risk, then less cost. */
  ghost predicate Precedes(p: Proposal, q: Proposal, critiques: seq<Critique>, preferences: seq<Preference>) {
    var against, against' := |Taking(critiques, p.id, Objection)|, |Taking(critiques, q.id, Objection)|;
    var backing, backing' := |Taking(critiques, p.id, Support)|, |Taking(critiques, q.id, Support)|;
    var strength, strength' := Strength(preferences, p.id), Strength(preferences, q.id);
    || against < against'
    || (against == against' && backing > backing')
    || (against == against' && backing == backing' && strength > strength')
    || (against == against' && backing == backing' && strength == strength' && p.risk < q.risk)
    || (against == against' && backing == backing' && strength == strength' && p.risk == q.risk && p.cost < q.cost)
  }

  /** The preferred proposal is preceded by none, and is the first of those that tie with it. */
  lemma PreferredComesFirst(ps: seq<Proposal>, critiques: seq<Critique>, preferences: seq<Preference>, j: nat)
    requires j < |ps|
    ensures var i := PreferredIndex(ps, critiques, preferences);
      && !Precedes(ps[j], ps[i], critiques, preferences)
      && (j < i ==> Precedes(ps[i], ps[j], critiques, preferences))
  {
    var i := PreferredIndex(ps, critiques, preferences);
    StancesCount(critiques, ps[i].id, Objection);
    StancesCount(critiques, ps[j].id, Objection);
    StancesCount(critiques, ps[i].id, Support);
    StancesCount(critiques, ps[j].id, Support);
  }

  // What can be selected

  lemma {:induction false} CanonicalAt(render: Rendering, ps: seq<Proposal>, i: nat)
    requires CanonicalProposals(render, ps).Some? && i < |ps|
    ensures var canonical := CanonicalProposals(render, ps).value;
      && |canonical| == |ps| && canonical[i].id == ps[i].id
      && CanonicalRequest(render, ps[i].request) == Some(canonical[i].request)
  {
    var rest := CanonicalProposals(render, ps[1..]).value;
    if i > 0 {
      CanonicalAt(render, ps[1..], i - 1);
    } else if |ps| > 1 {
      CanonicalAt(render, ps[1..], 0);
    }
  }

  /** A canonical request stays canonical without raising. */
  lemma CanonicalAgain(render: Rendering, r: Request)
    requires CanonicalRequest(render, r).Some?
    ensures CanonicalRequest(render, CanonicalRequest(render, r).value).Some?
  {
    CanonicalSettles(render, r.family, r.params);
  }

  lemma {:induction false} CanonicalProposalsAgain(render: Rendering, ps: seq<Proposal>)
    requires CanonicalProposals(render, ps).Some?
    ensures CanonicalProposals(render, CanonicalProposals(render, ps).value).Some?
  {
    if ps != [] {
      CanonicalAgain(render, ps[0].request);
      CanonicalProposalsAgain(render, ps[1..]);
      assert CanonicalProposals(render, ps).value[1..] == CanonicalProposals(render, ps[1..]).value;
    }
  }

  /** The action built from a once canonical proposal asks for what was checked: the request
      canonicalized a second time. */
  lemma ActionIsChecked(render: Rendering, r: Request, p: Proposal)
    requires CanonicalRequest(render, r) == Some(p.request)
    ensures ActionOf(render, p).Some? && CanonicalRequest(render, p.request) == Some(ActionOf(render, p).value.request)
  {
    CanonicalAgain(render, r);
    if p.request.family !in LOCAL_FAMILIES {
      assert !IsChannelFamily(p.request.family);
    }
  }

  lemma {:induction false} ViableAreLegal(legal: Request -> bool, ps: seq<Proposal>, p: Proposal)
    ensures p in Viable(legal, ps) <==> p in ps && legal(p.request)
  {
    if ps != [] {
      ViableAreLegal(legal, ps[1..], p);
      assert ps == [ps[0]] + ps[1..];
    }
  }

  /** The proposals as first normalized, which the selected action is built from. */
  function Normalized(desk: Desk, proposals: seq<Proposal>): seq<Proposal>
    requires CanonicalProposals(desk.render, proposals).Some?
  {
    CanonicalProposals(desk.render, proposals).value
  }

  /** The ids a reply can settle on. A reply's id is stripped before it is compared, so an
      id with surrounding space is chosen only when it is the only legal one. */
  predicate Reachable(id: string, legalIds: set<string>, preferred: string) {
    && id in legalIds
    && (Strip(id) == id || legalIds == {id})
    && (id == "" ==> Strip(preferred) == "" || Strip(preferred) !in legalIds)
  }

  lemma SettledIsReachable(override: bool, reply: Reply, legalIds: set<string>, preferred: string)
    requires SettledId(override, reply, legalIds, preferred).Some?
    requires SettledId(override, reply, legalIds, preferred).value in legalIds
    requires override ==> NamedId(reply) != ""
    ensures Reachable(SettledId(override, reply, legalIds, preferred).value, legalIds, preferred)
  {
    StripTrims(reply.selectedId);
    StripTrims(preferred);
    if reply.action.Some? { StripTrims(SourceOf(reply.action.value)); }
    if |legalIds| == 1 { SingletonMember(legalIds); }
  }

  /** The reply that settles on a reachable id, without an action of its own. */
  lemma ReachableIsSettled(id: string, legalIds: set<string>, preferred: string) returns (reply: Reply)
    requires Reachable(id, legalIds, preferred) && preferred in legalIds
    ensures reply.action.None? && SettledId(false, reply, legalIds, preferred) == Some(id)
  {
    StripTrims(id);
    StripTrims("");
    if Strip(id) == id {
      reply := Reply(id, None, false, false, false);
    } else {
      reply := Reply("", None, false, false, false);
      StripTrims(preferred);
      assert |legalIds| == 1;
    }
    if |legalIds| == 1 { SingletonMember(legalIds); }
  }

  ghost predicate Accepted(desk: Desk, outcome: Outcome) {
    outcome.Recorded? && outcome.record.action.Some? ==> desk.legal(outcome.record.action.value.request)
  }

  /** Every id that can be settled on belongs to a legal proposal at its first occurrence. */
  ghost predicate FirstsAreLegal(desk: Desk, ps: seq<Proposal>, viable: seq<Proposal>, preferred: string)
    requires forall id :: id in Ids(viable) ==> exists q :: q in ps && q.id == id
  {
    forall id :: Reachable(id, Ids(viable), preferred) ==>
      exists r :: CanonicalRequest(desk.render, FirstWithId(ps, id).request) == Some(r) && desk.legal(r)
  }

  lemma ChoiceIsLegal(desk: Desk, proposals: seq<Proposal>, viable: seq<Proposal>, preferred: string, reply: Reply)
    requires CanonicalProposals(desk.render, proposals).Some?
    requires forall id :: id in Ids(viable) ==> exists q :: q in Normalized(desk, proposals) && q.id == id
    requires FirstsAreLegal(desk, Normalized(desk, proposals), viable, preferred)
    ensures Accepted(desk, Choose(desk, Normalized(desk, proposals), Ids(viable), preferred, reply))
  {
    var ps := Normalized(desk, proposals);
    var outcome := Choose(desk, ps, Ids(viable), preferred, reply);
    if outcome.Recorded? && outcome.record.action.Some? {
      var override := LegalOverride(desk, reply).value;
      var id := SettledId(override.Some?, reply, Ids(viable), preferred).value;
      if id in Ids(viable) {
        SettledIsReachable(override.Some?, reply, Ids(viable), preferred);
        var p := FirstWithId(ps, id);
        FirstIsNormalized(desk, proposals, p);
      }
    }
  }

  lemma FirstIsNormalized(desk: Desk, proposals: seq<Proposal>, p: Proposal)
    requires CanonicalProposals(desk.render, proposals).Some? && p in Normalized(desk, proposals)
    ensures ActionOf(desk.render, p).Some?
    ensures CanonicalRequest(desk.render, p.request) == Some(ActionOf(desk.render, p).value.request)
  {
    var i :| 0 <= i < |Normalized(desk, proposals)| && Normalized(desk, proposals)[i] == p;
    assert |Normalized(desk, proposals)| == |proposals| by {
      if proposals != [] { CanonicalAt(desk.render, proposals, 0); }
    }
    CanonicalAt(desk.render, proposals, i);
    ActionIsChecked(desk.render, proposals[i].request, p);
  }

  /** Whatever the model replies, an action is selected only if the legality check accepted
      its own family, target, parameters and flags: this holds exactly when each id that can
      be settled on belongs, at its first occurrence, to a legal proposal. */
  lemma AlwaysLegalIffFirstsAreLegal(desk: Desk, proposals: seq<Proposal>, critiques: seq<Critique>,
      preferences: seq<Preference>, viable: seq<Proposal>, preferred: string)
    requires CanonicalProposals(desk.render, proposals).Some?
    requires Guard(desk, Normalized(desk, proposals), critiques, preferences) == Open(viable, preferred)
    ensures forall id :: id in Ids(viable) ==> exists q :: q in Normalized(desk, proposals) && q.id == id
    ensures (forall reply :: Accepted(desk, Arbitrated(desk, proposals, critiques, preferences, reply)))
       <==> FirstsAreLegal(desk, Normalized(desk, proposals), viable, preferred)
  {
    var ps := Normalized(desk, proposals);
    forall id | id in Ids(viable)
      ensures exists q :: q in ps && q.id == id
    {
      ViableIdsKnown(desk.render, desk.legal, ps, id);
    }
    if FirstsAreLegal(desk, ps, viable, preferred) {
      forall reply
        ensures Accepted(desk, Arbitrated(desk, proposals, critiques, preferences, reply))
      {
        ChoiceIsLegal(desk, proposals, viable, preferred, reply);
      }
    } else {
      var id :| Reachable(id, Ids(viable), preferred)
        && !exists r :: CanonicalRequest(desk.render, FirstWithId(ps, id).request) == Some(r) && desk.legal(r);
      var reply := IllegalFirstIsSelected(desk, proposals, viable, preferred, id);
      assert !Accepted(desk, Arbitrated(desk, proposals, critiques, preferences, reply));
    }
  }

  lemma IllegalFirstIsSelected(desk: Desk, proposals: seq<Proposal>, viable: seq<Proposal>, preferred: string,
      id: string)
    returns (reply: Reply)
    requires CanonicalProposals(desk.render, proposals).Some? && preferred in Ids(viable)
    requires forall id :: id in Ids(viable) ==> exists q :: q in Normalized(desk, proposals) && q.id == id
    requires Reachable(id, Ids(viable), preferred)
    requires var first := FirstWithId(Normalized(desk, proposals), id);
      !exists r :: CanonicalRequest(desk.render, first.request) == Some(r) && desk.legal(r)
    ensures !Accepted(desk, Choose(desk, Normalized(desk, proposals), Ids(viable), preferred, reply))
  {
    reply := ReachableIsSettled(id, Ids(viable), preferred);
    FirstIsNormalized(desk, proposals, FirstWithId(Normalized(desk, proposals), id));
  }

  // What a reply decides

  /** The record selects the first proposal with this id, as canonicalized; only the texts are
      the reply's, when it gave an action for it. An action whose own parameters cannot be read
      raises. */
  ghost predicate Selected(desk: Desk, first: Proposal, reply: Reply, outcome: Outcome) {
    var own := reply.action.Some? && Strip(SourceOf(reply.action.value)) == first.id;
    && (outcome.Raised? <==>
          own && Canonical(desk.render, first.request.family, reply.action.value.request.params).None?)
    && (outcome.Recorded? ==>
          && outcome.record.action.Some? && !outcome.record.noop && !outcome.record.ready
          && (first.id != "" ==> outcome.record.selectedId == first.id)
          && outcome.record.action.value.source == Some(first.id)
          && CanonicalRequest(desk.render, first.request) == Some(outcome.record.action.value.request)
          && outcome.record.waiting == outcome.record.action.value.request.wait
          && outcome.record.action.value.notes == if own then reply.action.value.notes else "")
  }

  /** A reply without an override selects the viable proposal it names, directly or through its
      action. When it names none, or gives an action for an unknown one, the preferred proposal
      is selected; when it names an unknown one and gives no action, nothing is, and the
      record repeats what the reply said. */
  lemma ReplyDecides(desk: Desk, proposals: seq<Proposal>, critiques: seq<Critique>, preferences: seq<Preference>,
      viable: seq<Proposal>, preferred: string, reply: Reply)
    requires CanonicalProposals(desk.render, proposals).Some?
    requires Guard(desk, Normalized(desk, proposals), critiques, preferences) == Open(viable, preferred)
    requires !IsOverride(NamedId(reply)) || reply.action.None?
    ensures forall id :: id in Ids(viable) ==> exists q :: q in Normalized(desk, proposals) && q.id == id
    ensures var outcome := Arbitrated(desk, proposals, critiques, preferences, reply);
      var ps, ids, fallback := Normalized(desk, proposals), Ids(viable), Strip(preferred);
      var direct := Strip(reply.selectedId);
      var named := if direct == "" && reply.action.Some? then Strip(SourceOf(reply.action.value)) else direct;
      && (named != "" && named in ids ==> Selected(desk, FirstWithId(ps, named), reply, outcome))
      && (named == "" && fallback in ids ==> Selected(desk, FirstWithId(ps, fallback), reply, outcome))
      && (named != "" && named !in ids && reply.action.Some? ==>
            if fallback in ids then Selected(desk, FirstWithId(ps, fallback), reply, outcome) else outcome.Raised?)
      && (named != "" && named !in ids && reply.action.None? ==>
            outcome == Recorded(Record(named, None, reply.noop, reply.waiting, reply.ready)))
  {
    var ps := Normalized(desk, proposals);
    forall id | id in Ids(viable)
      ensures exists q :: q in ps && q.id == id
    {
      ViableIdsKnown(desk.render, desk.legal, ps, id);
    }
    assert LegalOverride(desk, reply) == Some(None);
    var settled := SettledId(false, reply, Ids(viable), preferred);
    if settled.Some? && settled.value in Ids(viable) {
      FirstIsNormalized(desk, proposals, FirstWithId(ps, settled.value));
      ChosenIsSelected(desk, ps, Ids(viable), preferred, reply);
    }
  }

  lemma ChosenIsSelected(desk: Desk, ps: seq<Proposal>, ids: set<string>, preferred: string, reply: Reply)
    requires forall id :: id in ids ==> exists q :: q in ps && q.id == id
    requires LegalOverride(desk, reply) == Some(None)
    requires SettledId(false, reply, ids, preferred).Some? && SettledId(false, reply, ids, preferred).value in ids
    requires var p := FirstWithId(ps, SettledId(false, reply, ids, preferred).value);
      ActionOf(desk.render, p).Some?
      && CanonicalRequest(desk.render, p.request) == Some(ActionOf(desk.render, p).value.request)
    ensures Selected(desk, FirstWithId(ps, SettledId(false, reply, ids, preferred).value), reply,
              Choose(desk, ps, ids, preferred, reply))
  {
  }

  /** A legal override is taken as it is, once canonical, under an id that no viable proposal
      has. */
  lemma OverrideIsTaken(desk: Desk, proposals: seq<Proposal>, critiques: seq<Critique>, preferences: seq<Preference>,
      viable: seq<Proposal>, preferred: string, reply: Reply, r: Request)
    requires CanonicalProposals(desk.render, proposals).Some?
    requires Guard(desk, Normalized(desk, proposals), critiques, preferences) == Open(viable, preferred)
    requires reply.action.Some? && CanonicalRequest(desk.render, reply.action.value.request) == Some(r) && desk.legal(r)
    requires "ORCHESTRATOR_OVERRIDE:" <= Strip(reply.selectedId) && Strip(reply.selectedId) !in Ids(viable)
    ensures Arbitrated(desk, proposals, critiques, preferences, reply)
      == Recorded(Record(Strip(reply.selectedId), Some(reply.action.value.(request := r)), false, r.wait, false))
  {
    forall id | id in Ids(viable)
      ensures exists q :: q in Normalized(desk, proposals) && q.id == id
    {
      ViableIdsKnown(desk.render, desk.legal, Normalized(desk, proposals), id);
    }
    OverrideIsChosen(desk, Normalized(desk, proposals), Ids(viable), preferred, reply, r);
  }

  lemma OverrideIsChosen(desk: Desk, ps: seq<Proposal>, ids: set<string>, preferred: string, reply: Reply, r: Request)
    requires forall id :: id in ids ==> exists q :: q in ps && q.id == id
    requires reply.action.Some? && CanonicalRequest(desk.render, reply.action.value.request) == Some(r) && desk.legal(r)
    requires IsOverride(Strip(reply.selectedId)) && Strip(reply.selectedId) !in ids
    ensures Choose(desk, ps, ids, preferred, reply)
      == Recorded(Record(Strip(reply.selectedId), Some(reply.action.value.(request := r)), false, r.wait, false))
  {
    var named := Strip(reply.selectedId);
    assert named != "" && NamedId(reply) == named;
    assert LegalOverride(desk, reply) == Some(Some(reply.action.value.(request := r)));
    assert SettledId(true, reply, ids, preferred) == Some(named);
  }

  /** Without a viable proposal nothing is selected, whatever the reply: the record waits when
      the run waits for external work, and is ready when it does not and every task is
      resolved. */
  lemma NothingViable(desk: Desk, proposals: seq<Proposal>, critiques: seq<Critique>, preferences: seq<Preference>,
      reply: Reply)
    requires CanonicalProposals(desk.render, proposals).Some? && !BudgetExhausted(desk.standing)
    requires var again := CanonicalProposals(desk.render, Normalized(desk, proposals));
      again.Some? ==> forall p :: p in again.value ==> !desk.legal(p.request)
    ensures var outcome := Arbitrated(desk, proposals, critiques, preferences, reply);
      && outcome.Recorded? && outcome.record.action.None? && outcome.record.noop
      && (outcome.record.waiting <==> desk.standing.waitingExternal)
      && (outcome.record.ready <==> !desk.standing.waitingExternal && desk.standing.allTasksResolved)
  {
    var ps := Normalized(desk, proposals);
    CanonicalProposalsAgain(desk.render, proposals);
    var again := CanonicalProposals(desk.render, ps).value;
    if Viable(desk.legal, again) != [] {
      ViableAreLegal(desk.legal, again, Viable(desk.legal, again)[0]);
    }
  }

  // Distinct ids

  ghost predicate DistinctIds(ps: seq<Proposal>) {
    forall i, j :: 0 <= i < j < |ps| ==> ps[i].id != ps[j].id
  }

  lemma {:induction false} FirstIsOnly(ps: seq<Proposal>, i: nat)
    requires DistinctIds(ps) && i < |ps|
    ensures ps[i] in ps && FirstWithId(ps, ps[i].id) == ps[i]
  {
    if i > 0 {
      assert ps[1..][i - 1] == ps[i];
      FirstIsOnly(ps[1..], i - 1);
    }
  }

  /** With distinct ids the first proposal of a legal id is the one that was found legal. */
  lemma DistinctFirstsAreLegal(desk: Desk, proposals: seq<Proposal>, critiques: seq<Critique>,
      preferences: seq<Preference>, viable: seq<Proposal>, preferred: string, id: string) returns (p: Proposal)
    requires CanonicalProposals(desk.render, proposals).Some? && DistinctIds(proposals)
    requires Guard(desk, Normalized(desk, proposals), critiques, preferences) == Open(viable, preferred)
    requires id in Ids(viable)
    ensures p in viable && p.id == id && desk.legal(p.request)
    ensures exists q :: q in Normalized(desk, proposals) && q.id == id
    ensures CanonicalRequest(desk.render, FirstWithId(Normalized(desk, proposals), id).request) == Some(p.request)
  {
    var ps := Normalized(desk, proposals);
    p :| p in viable && p.id == id;
    var canonical := CanonicalProposals(desk.render, ps).value;
    ViableAreLegal(desk.legal, canonical, p);
    var i :| 0 <= i < |canonical| && canonical[i] == p;
    if proposals != [] { CanonicalAt(desk.render, proposals, 0); CanonicalAt(desk.render, ps, 0); }
    CanonicalAt(desk.render, ps, i);
    assert DistinctIds(ps) by {
      forall a, b | 0 <= a < b < |ps|
        ensures ps[a].id != ps[b].id
      {
        CanonicalAt(desk.render, proposals, a);
        CanonicalAt(desk.render, proposals, b);
      }
    }
    FirstIsOnly(ps, i);
  }

  ghost predicate Selects(outcome: Outcome) {
    outcome.Recorded? && outcome.record.action.Some?
  }

  /** Where a selected action comes from: the first normalized proposal of a viable id, or an
      override the check accepted. */
  lemma SelectionOf(desk: Desk, proposals: seq<Proposal>, critiques: seq<Critique>, preferences: seq<Preference>,
      reply: Reply)
    returns (viable: seq<Proposal>, preferred: string)
    requires Selects(Arbitrated(desk, proposals, critiques, preferences, reply))
    ensures CanonicalProposals(desk.render, proposals).Some?
    ensures Guard(desk, Normalized(desk, proposals), critiques, preferences) == Open(viable, preferred)
    ensures forall id :: id in Ids(viable) ==> exists q :: q in Normalized(desk, proposals) && q.id == id
    ensures var record := Arbitrated(desk, proposals, critiques, preferences, reply).record;
      var a := record.action.value;
      && record.waiting == a.request.wait
      && (|| (exists id :: id in Ids(viable) && a.source == Some(id)
                && CanonicalRequest(desk.render, FirstWithId(Normalized(desk, proposals), id).request)
                  == Some(a.request))
          || (IsOverride(NamedId(reply)) && reply.action.Some? && desk.legal(a.request)
                && CanonicalRequest(desk.render, reply.action.value.request) == Some(a.request)))
  {
    var ps := Normalized(desk, proposals);
    var guarded := Guard(desk, ps, critiques, preferences);
    viable, preferred := guarded.viable, guarded.preferred;
    forall id | id in Ids(viable)
      ensures exists q :: q in ps && q.id == id
    {
      ViableIdsKnown(desk.render, desk.legal, ps, id);
    }
    ChoiceOf(desk, proposals, Ids(viable), preferred, reply);
  }

  lemma ChoiceOf(desk: Desk, proposals: seq<Proposal>, legalIds: set<string>, preferred: string, reply: Reply)
    requires CanonicalProposals(desk.render, proposals).Some?
    requires forall id :: id in legalIds ==> exists q :: q in Normalized(desk, proposals) && q.id == id
    requires Selects(Choose(desk, Normalized(desk, proposals), legalIds, preferred, reply))
    ensures var record := Choose(desk, Normalized(desk, proposals), legalIds, preferred, reply).record;
      var a := record.action.value;
      && record.waiting == a.request.wait
      && (|| (exists id :: id in legalIds && a.source == Some(id)
                && CanonicalRequest(desk.render, FirstWithId(Normalized(desk, proposals), id).request)
                  == Some(a.request))
          || (IsOverride(NamedId(reply)) && reply.action.Some? && desk.legal(a.request)
                && CanonicalRequest(desk.render, reply.action.value.request) == Some(a.request)))
  {
    var override := LegalOverride(desk, reply).value;
    var id := SettledId(override.Some?, reply, legalIds, preferred).value;
    if id in legalIds {
      FirstIsNormalized(desk, proposals, FirstWithId(Normalized(desk, proposals), id));
    }
  }

  /** For any reply and any proposals with distinct ids, a selected action was accepted by
      the legality check as it stands, and it is a legal proposal's or a legal override. */
  lemma SelectedActionIsLegal(desk: Desk, proposals: seq<Proposal>, critiques: seq<Critique>,
      preferences: seq<Preference>, reply: Reply)
    returns (viable: seq<Proposal>)
    requires DistinctIds(proposals)
    requires Selects(Arbitrated(desk, proposals, critiques, preferences, reply))
    ensures forall p :: p in viable ==> desk.legal(p.request)
    ensures var a := Arbitrated(desk, proposals, critiques, preferences, reply).record.action.value;
      && desk.legal(a.request)
      && ((exists p :: p in viable && Some(p.id) == a.source && p.request == a.request)
          || (IsOverride(NamedId(reply)) && reply.action.Some?
              && CanonicalRequest(desk.render, reply.action.value.request) == Some(a.request)))
  {
    var preferred;
    viable, preferred := SelectionOf(desk, proposals, critiques, preferences, reply);
    var ps := Normalized(desk, proposals);
    forall p | p in viable
      ensures desk.legal(p.request)
    {
      ViableAreLegal(desk.legal, CanonicalProposals(desk.render, ps).value, p);
    }
    var a := Arbitrated(desk, proposals, critiques, preferences, reply).record.action.value;
    if a.source.Some? && a.source.value in Ids(viable)
      && CanonicalRequest(desk.render, FirstWithId(ps, a.source.value).request) == Some(a.request) {
      var p := DistinctFirstsAreLegal(desk, proposals, critiques, preferences, viable, preferred, a.source.value);
    }
  }

  /** Distinctness is needed: when a legal proposal repeats the id of an illegal one before
      it, naming the id selects the illegal one. */
  lemma RepeatedIdSelectsIllegal(desk: Desk, first: Proposal, second: Proposal)
    requires !BudgetExhausted(desk.standing)
    requires CanonicalRequest(desk.render, first.request) == Some(first.request)
    requires CanonicalRequest(desk.render, second.request) == Some(second.request)
    requires first.id == second.id != "" && Strip(first.id) == first.id
    requires !desk.legal(first.request) && desk.legal(second.request)
    ensures var outcome := Arbitrated(desk, [first, second], [], [], Reply(first.id, None, false, false, false));
      Selects(outcome) && outcome.record.action.value.request == first.request
  {
    var ps := [first, second];
    PairIsCanonical(desk.render, first, second);
    assert [second][1..] == [] && ps[1..] == [second];
    assert Viable(desk.legal, [second]) == [second];
    assert Viable(desk.legal, ps) == [second];
    assert Guard(desk, ps, [], []) == Open([second], second.id);
    var reply := Reply(first.id, None, false, false, false);
    assert second in [second];
    assert SettledId(false, reply, Ids([second]), second.id) == Some(first.id);
    assert FirstWithId(ps, first.id) == first;
    ActionIsChecked(desk.render, first.request, first);
  }

  lemma PairIsCanonical(render: Rendering, a: Proposal, b: Proposal)
    requires CanonicalRequest(render, a.request) == Some(a.request)
      && CanonicalRequest(render, b.request) == Some(b.request)
    ensures CanonicalProposals(render, [a, b]) == Some([a, b])
  {
    assert [b][1..] == [] && [a, b][1..] == [b];
    var none: seq<Proposal> := [];
    assert CanonicalProposals(render, none) == Some(none);
    assert CanonicalProposals(render, [b]) == Some([b.(request := b.request)] + none);
    assert [b.(request := b.request)] + none == [b];
    assert CanonicalProposals(render, [a, b]) == Some([a.(request := a.request)] + [b]);
    assert [a.(request := a.request)] + [b] == [a, b];
  }

  // Flags

  /** No action of a local family is ever selected with a submit or wait flag, whatever was
      proposed or overridden. */
  lemma LocalActionsDoNotWait(desk: Desk, proposals: seq<Proposal>, critiques: seq<Critique>,
      preferences: seq<Preference>, reply: Reply)
    requires Selects(Arbitrated(desk, proposals, critiques, preferences, reply))
    ensures var record := Arbitrated(desk, proposals, critiques, preferences, reply).record;
      var r := record.action.value.request;
      r.family in LOCAL_FAMILIES ==> !r.submit && !r.wait && !record.waiting
  {
    var viable, preferred := SelectionOf(desk, proposals, critiques, preferences, reply);
  }

  /** The second canonicalization inside the guardrail never raises. */
  lemma GuardDoesNotRaise(desk: Desk, proposals: seq<Proposal>, critiques: seq<Critique>, preferences: seq<Preference>)
    requires CanonicalProposals(desk.render, proposals).Some?
    ensures !Guard(desk, Normalized(desk, proposals), critiques, preferences).GuardRaised?
  {
    CanonicalProposalsAgain(desk.render, proposals);
  }
}
