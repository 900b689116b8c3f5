/**
  The state of one project's dispute: which rounds have bonds, who sits on the jury, which
  fees and rewards are open, and how all of it follows the project's own status. Every call
  on the project keeps it; calls on other projects do not touch it.
*/
module DisputeProtocol {
  import opened Prelude
  import opened Types
  import opened Currency
  import opened Reputation
  import opened Projects
  import opened Arbitration
  import opened FeeTheorems

  /** Everything the storage holds about one project, its lock aside. */
  datatype Case = Case(
    project: Option<Project>,
    applicants: seq<AccountId>,
    dispute: Option<Dispute>,
    bonds: map<nat, Bond>,
    cost: Option<Balance>,
    fees1: map<AccountId, JuryFee>,
    fees2: map<AccountId, JuryFee>,
    fees3: map<AccountId, JuryFee>,
    rewards: map<AccountId, Balance>)

  function Lookup<K, V>(m: map<K, V>, k: K): Option<V> {
    if k in m then Some(m[k]) else None
  }

  function CaseOf(s: State, id: ProjectId): Case {
    Case(Lookup(s.proj.projects, id), Applicants(s.proj, id), Lookup(s.arb.disputes, id),
         Prefix(s.arb.bonds, id), Lookup(s.arb.costs, id),
         Prefix(s.arb.fees, (id, 1)), Prefix(s.arb.fees, (id, 2)), Prefix(s.arb.fees, (id, 3)),
         Prefix(s.arb.rewards, id))
  }

  // ---------- the jury ----------

  function Sitting(seats: seq<(AccountId, bool)>): set<AccountId> {
    set i | 0 <= i < |seats| :: seats[i].0
  }

  /** The jurors flagged as having voted. */
  function Flagged(seats: seq<(AccountId, bool)>): set<AccountId> {
    set i | 0 <= i < |seats| && seats[i].1 :: seats[i].0
  }

  predicate DistinctSeats(seats: seq<(AccountId, bool)>) {
    forall i, j :: 0 <= i < j < |seats| ==> seats[i].0 != seats[j].0
  }

  // ---------- the invariant ----------

  /** A project past assignment has a freelancer, and past submission a submission. */
  predicate ProjectOk(cfg: Config, p: Project) {
    && p.budget <= cfg.maxBalance
    && p.client != cfg.arbitrator
    && p.freelancer != Some(cfg.arbitrator)
    && (p.status in {InProgress, InReview, Rejected, InDispute, Completed} ==> p.freelancer.Some?)
    && (p.status in {InReview, Rejected, InDispute, Completed} ==> p.submission.Some?)
  }

  predicate Uninvolved(cfg: Config, p: Project, who: AccountId) {
    who != p.client && p.freelancer != Some(who) && who != cfg.arbitrator
  }

  predicate IsParty(p: Project, who: AccountId) {
    who == p.client || p.freelancer == Some(who)
  }

  /** One bond per round so far; the first is the freelancer's. */
  ghost predicate BondsOk(cfg: Config, p: Project, round: nat, bonds: map<nat, Bond>) {
    && (forall r :: r in bonds <==> 1 <= r <= round)
    && (forall r :: r in bonds ==> bonds[r].amount == BondOf(cfg, p.budget, r) && IsParty(p, bonds[r].owner))
    && (1 in bonds ==> p.freelancer == Some(bonds[1].owner))
  }

  /** Fees of a round are the same for every juror, and no juror is involved. */
  ghost predicate FeesOk(cfg: Config, p: Project, round: nat, fees: map<AccountId, JuryFee>) {
    forall j :: j in fees ==> fees[j] == FeesOf(cfg, p.budget, round) && Uninvolved(cfg, p, j)
  }

  function FeesAt(c: Case, round: nat): map<AccountId, JuryFee> {
    if round == 2 then c.fees2 else if round == 3 then c.fees3 else c.fees1
  }

  /** How many rounds have been decided. */
  function DecidedRounds(d: Dispute): nat {
    if d.ruling.Some? then d.round else SatSub(d.round, 1)
  }

  /** The most one juror can have earned so far. */
  function EarnedCap(cfg: Config, budget: Balance, decided: nat): Balance {
    (if decided >= 2 then TopReward(cfg, budget, 2) else 0) + (if decided >= 3 then TopReward(cfg, budget, 3) else 0)
  }

  ghost predicate RewardsOk(cfg: Config, p: Project, d: Dispute, c: Case) {
    forall j :: j in c.rewards ==>
      && (j in c.fees2 || j in c.fees3)
      && c.rewards[j] <= EarnedCap(cfg, p.budget, DecidedRounds(d))
  }

  /** A dispute under way. */
  ghost predicate OpenOk(cfg: Config, p: Project, d: Dispute, c: Case) {
    && 1 <= d.round <= 3
    && (d.ruling.None? <==> d.status == AiProcessing || d.status == Voting)
    && (d.status == AiProcessing ==> d.round == 1)
    && (d.status == Voting ==> d.round >= 2)
    && BondsOk(cfg, p, d.round, c.bonds)
    && c.cost == Some(CostsTo(cfg, p.budget, d.round))
    && c.fees1 == map[]
    && FeesOk(cfg, p, 2, c.fees2)
    && FeesOk(cfg, p, 3, c.fees3)
    && (d.round < 2 ==> d.jurors == [] && c.fees2 == map[])
    && (d.round < 3 ==> c.fees3 == map[])
    && DistinctSeats(d.jurors)
    && d.votes.Keys == Flagged(d.jurors)
    && (d.round >= 2 ==> |d.jurors| == JurySize(cfg, d.round) && FeesAt(c, d.round).Keys == Sitting(d.jurors))
    && RewardsOk(cfg, p, d, c)
  }

  /** No bond, cost, fee or reward is on record. */
  predicate NothingOwed(c: Case) {
    c.bonds == map[] && c.cost == None && c.fees1 == map[] && c.fees2 == map[] && c.fees3 == map[] && c.rewards == map[]
  }

  /**
    A project is in dispute exactly when its dispute is not finalized, a finalized dispute
    belongs to a completed project, and financial records exist only under an open dispute.
  */
  ghost predicate CaseOk(cfg: Config, c: Case) {
    && cfg.arbitrator !in c.applicants
    && (c.project.Some? ==> ProjectOk(cfg, c.project.value))
    && match c.dispute {
         case None => NothingOwed(c) && (c.project.Some? ==> c.project.value.status != InDispute)
         case Some(d) =>
           && c.project.Some?
           && (var p := c.project.value;
               && p.freelancer.Some? && p.submission.Some?
               && d.requirementsUri == p.uri && d.submissionUri == p.submission.value.uri
               && if d.status == Finalized
                  then p.status == Completed && d.ruling.Some? && 1 <= d.round <= 3 && NothingOwed(c)
                  else p.status == InDispute && OpenOk(cfg, p, d, c))
       }
  }

  /** Every case is in order, and fees were only ever written for rounds 1 to 3. */
  ghost predicate AllCases(cfg: Config, s: State) {
    && (forall id :: CaseOk(cfg, CaseOf(s, id)))
    && (forall k :: k in s.arb.fees ==> 1 <= k.1 <= 3)
  }

  /** Nothing about any project but `id` differs. */
  ghost predicate OnlyCase(s: State, t: State, id: ProjectId) {
    forall j :: j != id ==> CaseOf(t, j) == CaseOf(s, j)
  }

  ghost predicate SameFeeRounds(s: State, t: State) {
    forall k :: k in t.arb.fees ==> k in s.arb.fees || 1 <= k.1 <= 3
  }

  lemma CasesKept(cfg: Config, s: State, t: State, id: ProjectId)
    requires AllCases(cfg, s) && OnlyCase(s, t, id) && SameFeeRounds(s, t)
    requires CaseOk(cfg, CaseOf(t, id))
    ensures AllCases(cfg, t)
  {
    forall j ensures CaseOk(cfg, CaseOf(t, j)) {
      if j != id {
        assert CaseOf(t, j) == CaseOf(s, j);
      }
    }
  }

  // ---------- project calls ----------

  /** A project without a dispute may take any status but InDispute. */
  lemma ProjectWritten(cfg: Config, s: State, w: ProjWorld, id: ProjectId, p: Project)
    requires AllCases(cfg, s)
    requires id !in s.arb.disputes
    requires ProjectOk(cfg, p) && p.status != InDispute
    requires w.proj.projects == s.proj.projects[id := p]
    requires forall j :: j != id ==> Applicants(w.proj, j) == Applicants(s.proj, j)
    requires cfg.arbitrator !in Applicants(w.proj, id)
    ensures AllCases(cfg, WithSite(s, w)) && OnlyCase(s, WithSite(s, w), id)
  {
    var t := WithSite(s, w);
    assert CaseOk(cfg, CaseOf(s, id));
    CasesKept(cfg, s, t, id);
  }

  lemma OpenCase(cfg: Config, s: State, id: ProjectId)
    requires AllCases(cfg, s) && id in s.arb.disputes && s.arb.disputes[id].status != Finalized
    ensures id in s.proj.projects
    ensures var p, d, c := s.proj.projects[id], s.arb.disputes[id], CaseOf(s, id);
      && p.status == InDispute && p.freelancer.Some? && p.submission.Some?
      && ProjectOk(cfg, p) && OpenOk(cfg, p, d, c)
  {
    assert CaseOk(cfg, CaseOf(s, id));
  }

  lemma NoDispute(cfg: Config, s: State, id: ProjectId)
    requires AllCases(cfg, s) && id !in s.arb.disputes
    ensures NothingOwed(CaseOf(s, id))
  {
    assert CaseOk(cfg, CaseOf(s, id));
  }

  lemma NoProject(cfg: Config, s: State, id: ProjectId)
    requires AllCases(cfg, s) && id !in s.proj.projects
    ensures id !in s.arb.disputes
  {
    assert CaseOk(cfg, CaseOf(s, id));
  }

  lemma NotDisputed(cfg: Config, s: State, id: ProjectId)
    requires AllCases(cfg, s) && id in s.proj.projects
    requires s.proj.projects[id].status != InDispute && s.proj.projects[id].status != Completed
    ensures id !in s.arb.disputes
  {
    assert CaseOk(cfg, CaseOf(s, id));
  }

  lemma CreateProjectKeepsCases(cfg: Config, s: State, client: AccountId, budget: Balance, uri: Uri,
                                duration: BlockNumber)
    requires AllCases(cfg, s) && client != cfg.arbitrator && budget <= cfg.maxBalance
    requires s.proj.nextProjectId !in s.proj.projects
    requires AfterCreateProject(cfg, s.now, s.Site(), client, budget, uri, duration).Ok?
    ensures var t := WithSite(s, AfterCreateProject(cfg, s.now, s.Site(), client, budget, uri, duration).value);
      AllCases(cfg, t) && OnlyCase(s, t, s.proj.nextProjectId)
  {
    var id := s.proj.nextProjectId;
    assert CaseOk(cfg, CaseOf(s, id));
    var w := AfterCreateProject(cfg, s.now, s.Site(), client, budget, uri, duration).value;
    ProjectWritten(cfg, s, w, id, Project(client, None, uri, budget, Created, duration, None, None, None));
  }

  lemma ApplyKeepsCases(cfg: Config, s: State, applicant: AccountId, id: ProjectId)
    requires AllCases(cfg, s) && applicant != cfg.arbitrator
    requires AfterApplyForProject(cfg, s.Site(), applicant, id).Ok?
    ensures var t := WithSite(s, AfterApplyForProject(cfg, s.Site(), applicant, id).value);
      AllCases(cfg, t) && OnlyCase(s, t, id)
  {
    assert CaseOk(cfg, CaseOf(s, id));
    NotDisputed(cfg, s, id);
    CasesKept(cfg, s, WithSite(s, AfterApplyForProject(cfg, s.Site(), applicant, id).value), id);
  }

  lemma StartWorkKeepsCases(cfg: Config, s: State, client: AccountId, id: ProjectId, selected: AccountId)
    requires AllCases(cfg, s)
    requires AfterStartWork(cfg, s.now, s.Site(), client, id, selected).Ok?
    ensures var t := WithSite(s, AfterStartWork(cfg, s.now, s.Site(), client, id, selected).value);
      AllCases(cfg, t) && OnlyCase(s, t, id)
  {
    assert CaseOk(cfg, CaseOf(s, id));
    NotDisputed(cfg, s, id);
    var w := AfterStartWork(cfg, s.now, s.Site(), client, id, selected).value;
    ProjectWritten(cfg, s, w, id, w.proj.projects[id]);
  }

  lemma SubmitWorkKeepsCases(cfg: Config, s: State, freelancer: AccountId, id: ProjectId,
                             contentHash: string, uri: Uri, metadata: string)
    requires AllCases(cfg, s)
    requires AfterSubmitWork(s.now, s.Site(), freelancer, id, contentHash, uri, metadata).Ok?
    ensures var t := WithSite(s, AfterSubmitWork(s.now, s.Site(), freelancer, id, contentHash, uri, metadata).value);
      AllCases(cfg, t) && OnlyCase(s, t, id)
  {
    assert CaseOk(cfg, CaseOf(s, id));
    NotDisputed(cfg, s, id);
    var w := AfterSubmitWork(s.now, s.Site(), freelancer, id, contentHash, uri, metadata).value;
    ProjectWritten(cfg, s, w, id, w.proj.projects[id]);
  }

  lemma AcceptWorkKeepsCases(cfg: Config, s: State, client: AccountId, id: ProjectId, rating: nat)
    requires AllCases(cfg, s)
    requires AfterAcceptWork(cfg, s.now, s.Site(), client, id, rating).Ok?
    ensures var t := WithSite(s, AfterAcceptWork(cfg, s.now, s.Site(), client, id, rating).value);
      AllCases(cfg, t) && OnlyCase(s, t, id)
  {
    assert CaseOk(cfg, CaseOf(s, id));
    NotDisputed(cfg, s, id);
    hide AfterProjectCompleted, AfterWorkAccepted, AfterTransfer;
    var w := AfterAcceptWork(cfg, s.now, s.Site(), client, id, rating).value;
    ProjectWritten(cfg, s, w, id, w.proj.projects[id]);
  }

  lemma RejectWorkKeepsCases(cfg: Config, s: State, client: AccountId, id: ProjectId, uri: Uri)
    requires AllCases(cfg, s)
    requires AfterRejectWork(s.now, s.Site(), client, id, uri).Ok?
    ensures var t := WithSite(s, AfterRejectWork(s.now, s.Site(), client, id, uri).value);
      AllCases(cfg, t) && OnlyCase(s, t, id)
  {
    assert CaseOk(cfg, CaseOf(s, id));
    NotDisputed(cfg, s, id);
    var w := AfterRejectWork(s.now, s.Site(), client, id, uri).value;
    ProjectWritten(cfg, s, w, id, w.proj.projects[id]);
  }

  lemma CancelProjectKeepsCases(cfg: Config, s: State, client: AccountId, id: ProjectId)
    requires AllCases(cfg, s)
    requires AfterCancelProject(s.now, s.Site(), client, id).Ok?
    ensures var t := WithSite(s, AfterCancelProject(s.now, s.Site(), client, id).value);
      AllCases(cfg, t) && OnlyCase(s, t, id)
  {
    assert CaseOk(cfg, CaseOf(s, id));
    NotDisputed(cfg, s, id);
    hide AfterProjectCancelled;
    var w := AfterCancelProject(s.now, s.Site(), client, id).value;
    ProjectWritten(cfg, s, w, id, w.proj.projects[id]);
  }
}
