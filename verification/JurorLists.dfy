/**
  Membership in the other direction, over whole runs: every juror with a tier can be selected,
  until a promotion that was recorded with a jury vote meets a full pool.
*/
module JurorLists {
  import opened Types
  import opened Currency
  import opened Reputation
  import opened JurorIndex
  import opened JurorCalls
  import opened Arbitration
  import opened DisputeProtocol
  import opened DisputeCalls
  import opened FeeTheorems
  import opened Money
  import opened Escrow
  import opened ReserveLedger
  import opened System
  import opened ChainInvariant
  import opened ChainSafety

  /** A round finalized while a promotion among its voters had no room. */
  ghost predicate DropsSomeone(cfg: Config, s: State, c: Call) {
    && c.FinalizeRound? && Apply(cfg, s, c).Ok? && c.id in s.arb.disputes
    && var d := s.arb.disputes[c.id];
       SomeJurorDropped(cfg, s.now, World(s), VoteOrder(d.votes), d.votes, RoundRuling(d.votes))
  }

  lemma ReputationCallsList(cfg: Config, s: State, c: Call, created: nat)
    requires Inv(cfg, s, created) && WellFormed(cfg, c) && EveryJurorListed(s.rep)
    requires IsReputationCall(c)
    requires Apply(cfg, s, c).Ok?
    ensures EveryJurorListed(Apply(cfg, s, c).value.rep)
  {
    hide AllCases, EscrowOk, ReservesExact, IdsOk, IndexOk, StakesBacked, EveryJurorListed, Worth;
    hide AfterRegisterUser, AfterRegisterAsJuror, AfterDeregisterAsJuror, AfterSlashJuror;
    var w := World(s);
    InvBacked(cfg, s, created);
    match c {
      case RegisterUser(who) => RegisterUserKeeps(cfg, s.now, w, who);
      case RegisterAsJuror(who) => RegisterAsJurorKeeps(cfg, w, who);
      case DeregisterAsJuror(who) => DeregisterAsJurorKeeps(cfg, w, who);
      case SlashJuror(juror) => SlashJurorKeeps(cfg, w, juror);
    }
  }

  lemma CreateDisputeLists(cfg: Config, s: State, who: AccountId, id: ProjectId)
    requires AfterCreateDispute(cfg, s, who, id).Ok?
    ensures AfterCreateDispute(cfg, s, who, id).value.rep == s.rep
  {
    hide AfterCreateDispute, BondOf, AfterReserve;
    CreateDisputeMoney(cfg, s, who, id);
  }

  lemma AppealLists(cfg: Config, s: State, who: AccountId, id: ProjectId)
    requires AfterAppealRuling(cfg, s, who, id).Ok? && EveryJurorListed(s.rep)
    ensures EveryJurorListed(AfterAppealRuling(cfg, s, who, id).value.rep)
  {
    hide AfterAppealRuling, Selection, BondOf, AfterReserve, OffList;
    var p, d, jury := AppealSucceeded(cfg, s, who, id);
    var t := AfterAppealRuling(cfg, s, who, id).value;
    SelectionOnlyMovesCursors(s.rep, RequiredTier(d.round + 1), [p.client, p.freelancer.value],
                              JurySize(cfg, d.round + 1));
    SameLists(cfg, s.rep, t.rep);
  }

  /** Every juror stays listed in a call exactly when the call is no such round. */
  lemma StepLists(cfg: Config, s: State, c: Call, created: nat)
    requires Inv(cfg, s, created) && WellFormed(cfg, c) && EveryJurorListed(s.rep)
    ensures EveryJurorListed(Step(cfg, s, c).rep) <==> !DropsSomeone(cfg, s, c)
  {
    hide Inv, EveryJurorListed, SomeJurorDropped, JuryOk, VoteOrder, RoundRuling;
    if Apply(cfg, s, c).Ok? {
      hide AfterCreateDispute, AfterAppealRuling, AfterFinalizeRound, AfterEnforceFinalRuling;
      if IsProjectCall(c) {
        hide Apply;
        InvBacked(cfg, s, created);
        ProjectCallsMoney(cfg, s, c);
      } else if IsReputationCall(c) {
        hide Apply;
        ReputationCallsList(cfg, s, c, created);
      } else if c.FinalizeRound? {
        FinalizeFacts(cfg, s, c.id);
        FinalizeRoundKeeps(cfg, s, c.id, created);
      } else {
        hide Apply;
        OtherCallsList(cfg, s, c, created);
      }
    }
  }

  lemma OtherCallsList(cfg: Config, s: State, c: Call, created: nat)
    requires Inv(cfg, s, created) && EveryJurorListed(s.rep)
    requires !IsProjectCall(c) && !IsReputationCall(c) && !c.FinalizeRound?
    requires Apply(cfg, s, c).Ok?
    ensures EveryJurorListed(Apply(cfg, s, c).value.rep)
  {
    hide Inv, EveryJurorListed, AfterCreateDispute, AfterAppealRuling, AfterEnforceFinalRuling, AfterTransfer;
    match c {
      case CreateDispute(who, id) => CreateDisputeLists(cfg, s, who, id);
      case AppealRuling(who, id) => AppealLists(cfg, s, who, id);
      case EnforceFinalRuling(_, id) => EnforceKeeps(cfg, s, id, created);
      case _ =>
    }
  }

  ghost predicate NobodyDropped(cfg: Config, s: State, calls: seq<Call>) {
    forall i :: 0 <= i < |calls| ==> !DropsSomeone(cfg, Run(cfg, s, calls[..i]), calls[i])
  }

  /** Over every run without such a round, exactly the jurors with a tier are in the pools. */
  lemma {:induction false} RunLists(cfg: Config, s: State, calls: seq<Call>, created: nat)
    requires SafeRun(cfg, s, calls, created) && EveryJurorListed(s.rep)
    requires NobodyDropped(cfg, s, calls)
    ensures EveryJurorListed(Run(cfg, s, calls).rep)
    ensures IndexOk(cfg, Run(cfg, s, calls).rep)
  {
    hide Apply, DropsSomeone, EveryJurorListed, AllCases, EscrowOk, ReservesExact, IdsOk, IndexOk;
    RunKeeps(cfg, s, calls, created);
    if calls != [] {
      hide Inv;
      var n := |calls| - 1;
      var init := calls[..n];
      assert forall i :: 0 <= i < n ==> init[..i] == calls[..i];
      LastStep(cfg, s, calls, created);
      RunLists(cfg, s, init, created);
      StepLists(cfg, Run(cfg, s, init), calls[n], ProjectsMade(cfg, s, init, created));
    }
  }
}
