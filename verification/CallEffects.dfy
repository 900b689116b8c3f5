/**
  What the calls on projects and on stakes leave in the storage, outright, and what an
  enforcement reports when it does not get as far as the ruling.
*/
module CallEffects {
  import opened Prelude
  import opened Types
  import opened Currency
  import opened Reputation
  import opened JurorIndex
  import opened Projects
  import opened Arbitration
  import opened System
  import opened Admission
  import opened TierCache

  /** A new project of the caller's under the next id, unassigned, with a lock of its budget unless that is zero. */
  lemma ProjectCreated(cfg: Config, s: State, t: State, c: Call)
    requires c.CreateProject? && Apply(cfg, s, c) == Ok(t)
    ensures var id := s.proj.nextProjectId;
      && t.proj == s.proj.(
           projects := s.proj.projects[id := Project(c.who, None, c.uri, c.budget, Created, c.duration,
                                                     None, None, None)],
           nextProjectId := (id + 1) % 0x1_0000_0000)
      && t.ledger == s.ledger.(locks := if c.budget == 0 then s.ledger.locks
                                        else s.ledger.locks[(c.who, LockIdOf(id)) := c.budget])
      && t.arb == s.arb
  {
    hide LockIdOf;
  }

  /** The calls on a project before and during the work change that project and its applicants only. */
  lemma HiringWrites(cfg: Config, s: State, t: State, c: Call)
    requires c.ApplyForProject? || c.StartWork? || c.SubmitWork? || c.RejectWork?
    requires Apply(cfg, s, c) == Ok(t)
    ensures c.id in s.proj.projects
    ensures t.ledger == s.ledger && t.rep == s.rep && t.arb == s.arb
    ensures t.proj.nextProjectId == s.proj.nextProjectId
    ensures var p, applicants := s.proj.projects[c.id], ApplicantsAt(s, c.id);
      match c
      case ApplyForProject(who, id) =>
        t.proj.projects == s.proj.projects && t.proj.applicants == s.proj.applicants[id := applicants + [who]]
      case StartWork(_, id, selected) =>
        && t.proj.projects[id] == p.(freelancer := Some(selected), status := InProgress,
                                     deadline := Some(Min(s.now + p.duration, cfg.maxBlock)))
        && t.proj.projects == s.proj.projects[id := t.proj.projects[id]]
        && t.proj.applicants == s.proj.applicants - {id}
      case SubmitWork(_, id, contentHash, uri, metadata) =>
        && t.proj.projects[id] == p.(status := InReview,
                                     submission := Some(WorkSubmission(contentHash, uri, s.now, metadata)))
        && t.proj.projects == s.proj.projects[id := t.proj.projects[id]] && t.proj.applicants == s.proj.applicants
      case RejectWork(_, id, uri) =>
        && t.proj.projects[id].status == Rejected
        && t.proj.projects[id] == p.(status := Rejected, rejection := t.proj.projects[id].rejection)
        && t.proj.projects[id].rejection == Some(Rejection(uri, s.now,
             match p.rejection case None => 0 case Some(last) => last.previousSubmissions + 1))
        && t.proj.projects == s.proj.projects[id := t.proj.projects[id]] && t.proj.applicants == s.proj.applicants
      case _ => true
  {
  }

  /** Accepting or cancelling closes the project, opens its lock and changes no other project. */
  lemma ClosingWrites(cfg: Config, s: State, t: State, c: Call)
    requires c.AcceptWork? || c.CancelProject?
    requires Apply(cfg, s, c) == Ok(t)
    ensures c.id in s.proj.projects
    ensures var status := if c.AcceptWork? then Completed else Cancelled;
      && t.proj == s.proj.(projects := s.proj.projects[c.id := s.proj.projects[c.id].(status := status)])
      && t.arb == s.arb
  {
    hide LockIdOf, AfterTransfer, AfterProjectCompleted;
  }

  /** The first four bytes of "tsk/", then the id with its least significant byte first. */
  lemma LockIdBytes()
    ensures LockIdOf(0x0403_0201) == [116, 115, 107, 47, 1, 2, 3, 4]
  {
    assert LOCK_PREFIX[..4] == [116, 115, 107, 47];
    assert Encoded(0x0403_0201) == [1, 2, 3, 4];
  }

  // ---------- stakes ----------

  /** The permill of an amount, rounded to the nearest integer, a half downwards. */
  lemma PermillNearest(ratio: nat, x: nat)
    requires ratio <= 1_000_000
    ensures -500_000 < ratio * x - 1_000_000 * PermillOf(ratio, x) <= 500_000
  {
    var y := ratio * x + 499_999;
    assert y == 1_000_000 * (y / 1_000_000) + y % 1_000_000;
  }

  /** Deregistering gives back the whole stake and leaves no trace of the juror. */
  lemma JurorLeaves(cfg: Config, s: State, t: State, who: AccountId)
    requires IndexShape(cfg, s.rep) && StakesBacked(RepWorld(s.ledger, s.rep))
    requires Apply(cfg, s, DeregisterAsJuror(who)) == Ok(t)
    ensures who in s.rep.registry && who in s.rep.stakeOf
    ensures t.rep.registry == s.rep.registry - {who} && t.rep.stakeOf == s.rep.stakeOf - {who}
    ensures TierOf(t.rep, who) == Ineligible && ListedUnder(t.rep, who, Ineligible)
    ensures SameElsewhere(s.rep, t.rep, who) && t.rep.stats == s.rep.stats
    ensures Free(t.ledger, who) == Free(s.ledger, who) + s.rep.stakeOf[who]
    ensures Reserved(t.ledger, who) == Reserved(s.ledger, who) - s.rep.stakeOf[who]
  {
    hide AfterRemoveFromTierList, IndexShape;
    var w := RepWorld(s.ledger, s.rep);
    assert Slack(w, who) >= 0;
    RemovedFromLists(cfg, s.rep, who);
    RemovalElsewhere(cfg, s.rep, who);
  }

  lemma RemovalElsewhere(cfg: Config, r: RepStore, who: AccountId)
    requires IndexShape(cfg, r)
    ensures SameElsewhere(r, AfterRemoveFromTierList(r, who, TierOf(r, who)), who)
  {
    hide AfterRemoveFromTierList, IndexShape;
    RemovalKeepsShape(cfg, r, who);
    var v := AfterRemoveFromTierList(r, who, TierOf(r, who));
    forall a | a != who
      ensures (a in v.gold <==> a in r.gold) && (a in v.silver <==> a in r.silver) && (a in v.bronze <==> a in r.bronze)
    {
      assert a in Pool(v, Gold) <==> a in Pool(r, Gold);
      assert a in Pool(v, Silver) <==> a in Pool(r, Silver);
      assert a in Pool(v, Bronze) <==> a in Pool(r, Bronze);
    }
  }

  /**
    A slash burns the ratio of the stake out of the reserve. It leaves the juror where it is
    with the rest of the stake, or without a trace if nothing is left.
  */
  lemma JurorSlashed(cfg: Config, s: State, t: State, juror: AccountId)
    requires IndexShape(cfg, s.rep) && StakesBacked(RepWorld(s.ledger, s.rep))
    requires Apply(cfg, s, SlashJuror(juror)) == Ok(t)
    ensures juror in s.rep.registry && juror in s.rep.stakeOf
    ensures var stake := s.rep.stakeOf[juror]; var burnt := PermillOf(cfg.slashRatio, stake);
      && Reserved(t.ledger, juror) == Reserved(s.ledger, juror) - burnt
      && t.ledger.free == s.ledger.free && t.ledger.issuance == SatSub(s.ledger.issuance, burnt)
      && t.rep.stats == s.rep.stats
      && (if burnt == stake
          then && t.rep.registry == s.rep.registry - {juror} && t.rep.stakeOf == s.rep.stakeOf - {juror}
               && TierOf(t.rep, juror) == Ineligible && ListedUnder(t.rep, juror, Ineligible)
               && SameElsewhere(s.rep, t.rep, juror)
          else t.rep == s.rep.(stakeOf := s.rep.stakeOf[juror := stake - burnt]))
  {
    hide AfterRemoveFromTierList, IndexShape, PermillOf;
    var w := RepWorld(s.ledger, s.rep);
    assert Slack(w, juror) >= 0;
    RemovedFromLists(cfg, s.rep, juror);
    RemovalElsewhere(cfg, s.rep, juror);
  }

  // ---------- an enforcement that is refused ----------

  /** What an enforcement checks before it carries out the ruling. */
  function EnforcementGate(cfg: Config, s: State, id: ProjectId): Gate {
    var p, d := ProjectAt(s, id), DisputeAt(s, id);
    Open.Need(id in s.arb.disputes, DisputeNotFound)
    .Need(d.status == Appealable, InvalidDisputeStatus)
    .Need(s.now >= Min(d.startBlock + cfg.appealPeriod, cfg.maxBlock), AppealPeriodExpired)
    .Need(id in s.proj.projects, ProjectNotFound)
    .Need(p.freelancer.Some?, NotFreelancer)
    .Need(d.ruling.Some?, InvalidDisputeStatus)
  }

  /** It is refused with that gate's error; past the gate, `EnforcementSucceedsExactly` decides. */
  lemma EnforcementRefused(cfg: Config, s: State, id: ProjectId)
    ensures var gate := EnforcementGate(cfg, s, id);
      gate.Shut? ==> gate.Decides(AfterEnforceFinalRuling(cfg, s, id))
  {
    hide AfterOnRuling, AfterPayouts, AfterDisputeOutcome;
  }
}
