/** The membership handlers as processes whose SQL statements interleave, the check of the caller's role being a
    statement of its own: who owns an organisation, and whom an invite admits, in every run. */
module MembershipRuns {
  import opened Wrappers
  import opened Membership

  /** What a caller with a sufficient role may ask for. */
  datatype Request =
    | RemoveReq(org: string, target: string)
    | UpdateReq(org: string, target: string, role: Role)
    | InviteReq(org: string, role: Role)
    | RevokeReq(org: string, token: string)
    | DeleteReq(org: string)

  function LeastRole(req: Request): Role {
    if req.DeleteReq? then Owner else Admin
  }

  /** Where a request stands between two of its statements. */
  datatype Phase =
    | Authed(req: Request)                                                   // the caller's role was found sufficient
    | NotOnboarded(user: string)                                             // no organisation found
    | OrgMade(user: string, org: string)                                     // organisation made, owner not added
    | MayUpdate(org: string, user: string, role: Role)                       // the target was found not to be owner
    | FoundOwner(org: string, user: string)                                  // removing an owner: count next
    | MayRemove(org: string, user: string)
    | Fetched(token: string, org: string, role: Role, user: string)          // the invite was found open
    | Outsider(token: string, org: string, role: Role, user: string)         // and the user is no member
    | Admitting(token: string, org: string, role: Role, user: string)        // and the invite is marked accepted

  datatype Admission = Admission(token: string, user: string, role: Role)

  /** Ghost history: organisations whose owner was added, those whose creator was deleted afterwards, and the
      members added through invites. */
  datatype State = State(
    t: Tables, onboarded: set<string>, orphaned: set<string>, admitted: seq<Admission>, procs: map<nat, Phase>)

  datatype Action =
    | Onboard(pid: nat, user: string)
    | MakeOrg(pid: nat, org: string)
    | AddOwner(pid: nat)
    | Authorise(pid: nat, caller: string, req: Request)
    | CheckUpdate(pid: nat)
    | WriteRole(pid: nat)
    | CheckRemove(pid: nat)
    | CountOwners(pid: nat)
    | WriteRemove(pid: nat)
    | MakeInvite(pid: nat, token: string)
    | Revoke(pid: nat)
    | DeleteOrg(pid: nat, org: string)
    | FetchInvite(pid: nat, token: string, user: string)
    | CheckOutsider(pid: nat)
    | MarkAccepted(pid: nat)
    | AddInvited(pid: nat)
    | Expire(token: string)              // the time of the invite runs out
    | DeleteUser(user: string)
    | Drop(pid: nat)                     // the request fails or its process dies

  const START: State := State(EMPTY, {}, {}, [], map[])

  predicate Enabled(s: State, a: Action) {
    var t, ps := s.t, s.procs;
    match a
    case Onboard(pid, user) => pid !in ps && !BelongsSomewhere(t, user)
    case MakeOrg(pid, org) => pid in ps && ps[pid].NotOnboarded? && org !in t.orgs
    case AddOwner(pid) => pid in ps && ps[pid].OrgMade?
    case Authorise(pid, caller, req) => pid !in ps && Authorised(t, req.org, caller, LeastRole(req))
    case CheckUpdate(pid) => pid in ps && ps[pid].Authed? && ps[pid].req.UpdateReq?
    case WriteRole(pid) => pid in ps && ps[pid].MayUpdate?
    case CheckRemove(pid) => pid in ps && ps[pid].Authed? && ps[pid].req.RemoveReq?
    case CountOwners(pid) => pid in ps && ps[pid].FoundOwner?
    case WriteRemove(pid) => pid in ps && ps[pid].MayRemove?
    case MakeInvite(pid, token) => pid in ps && ps[pid].Authed? && ps[pid].req.InviteReq? && token !in t.invites
    case Revoke(pid) => pid in ps && ps[pid].Authed? && ps[pid].req.RevokeReq?
    case DeleteOrg(pid, org) => pid in ps && ps[pid] == Authed(DeleteReq(org))
    case FetchInvite(pid, token, user) => pid !in ps && Open(t, token) && !t.invites[token].expired
    case CheckOutsider(pid) => pid in ps && ps[pid].Fetched?
    case MarkAccepted(pid) => pid in ps && ps[pid].Outsider?
    case AddInvited(pid) => pid in ps && ps[pid].Admitting?
    case Expire(_) => true
    case DeleteUser(_) => true
    case Drop(pid) => pid in ps
  }

  function TablesAfter(s: State, a: Action): Tables
    requires Enabled(s, a)
  {
    match a
    case MakeOrg(pid, org) => OrgAdded(s.t, org, s.procs[pid].user)
    case AddOwner(pid) => MemberAdded(s.t, s.procs[pid].org, s.procs[pid].user, Owner)
    case WriteRole(pid) => RoleSet(s.t, s.procs[pid].org, s.procs[pid].user, s.procs[pid].role)
    case WriteRemove(pid) => MemberRemoved(s.t, s.procs[pid].org, s.procs[pid].user)
    case MakeInvite(pid, token) =>
      var req := s.procs[pid].req;
      if req.role.Owner? then s.t else InviteAdded(s.t, req.org, token, req.role)
    case Revoke(pid) => InviteRevoked(s.t, s.procs[pid].req.org, s.procs[pid].req.token)
    case DeleteOrg(_, org) => OrgDeleted(s.t, org)
    case MarkAccepted(pid) => InviteAccepted(s.t, s.procs[pid].token, s.procs[pid].user)
    case AddInvited(pid) => MemberAdded(s.t, s.procs[pid].org, s.procs[pid].user, s.procs[pid].role)
    case Expire(token) => InviteExpired(s.t, token)
    case DeleteUser(user) => UserRemoved(s.t, user)
    case _ => s.t
  }

  /** The next phase of the acting request, or None when it is over. */
  function PhaseAfter(s: State, a: Action): Option<Phase>
    requires Enabled(s, a)
  {
    match a
    case Onboard(_, user) => Some(NotOnboarded(user))
    case MakeOrg(pid, org) => Some(OrgMade(s.procs[pid].user, org))
    case Authorise(_, _, req) => Some(Authed(req))
    case CheckUpdate(pid) =>
      var req := s.procs[pid].req;
      if req.role.Owner? || !IsActive(s.t, req.org, req.target) || IsOwner(s.t, req.org, req.target) then None
      else Some(MayUpdate(req.org, req.target, req.role))
    case CheckRemove(pid) =>
      var req := s.procs[pid].req;
      if !IsActive(s.t, req.org, req.target) then None
      else Some(if IsOwner(s.t, req.org, req.target) then FoundOwner(req.org, req.target) else MayRemove(req.org, req.target))
    case CountOwners(pid) =>
      var p := s.procs[pid];
      if |OwnersOf(s.t, p.org)| <= 1 then None else Some(MayRemove(p.org, p.user))
    case FetchInvite(_, token, user) => Some(Fetched(token, s.t.invites[token].org, s.t.invites[token].role, user))
    case CheckOutsider(pid) =>
      var p := s.procs[pid];
      if IsActive(s.t, p.org, p.user) then None else Some(Outsider(p.token, p.org, p.role, p.user))
    case MarkAccepted(pid) =>
      var p := s.procs[pid];
      if Open(s.t, p.token) then Some(Admitting(p.token, p.org, p.role, p.user)) else None
    case _ => None
  }

  predicate OfRequest(a: Action) {
    !(a.Expire? || a.DeleteUser?)
  }

  function ProcsAfter(s: State, a: Action): map<nat, Phase>
    requires Enabled(s, a)
  {
    if !OfRequest(a) then s.procs
    else
      var p := PhaseAfter(s, a);
      if p.Some? then s.procs[a.pid := p.value] else s.procs - {a.pid}
  }

  function Step(s: State, a: Action): State
    requires Enabled(s, a)
  {
    State(
      TablesAfter(s, a),
      if a.AddOwner? then s.onboarded + {s.procs[a.pid].org} else s.onboarded,
      if a.DeleteUser? then s.orphaned + set o | o in s.t.orgs && s.t.orgs[o] == a.user && o in s.onboarded else s.orphaned,
      if a.AddInvited? then s.admitted + [Admission(s.procs[a.pid].token, s.procs[a.pid].user, s.procs[a.pid].role)] else s.admitted,
      ProcsAfter(s, a))
  }

  function Apply(s: State, a: Action): State {
    if Enabled(s, a) then Step(s, a) else s
  }

  function Exec(s: State, run: seq<Action>): State
    decreases |run|
  {
    if run == [] then s else Exec(Apply(s, run[0]), run[1..])
  }

  // ---- Invariant ----

  /** Nobody but a creator owns; a user the handlers may write is not a standing creator. */
  predicate Harmless(s: State, org: string, user: string) {
    org in s.t.orgs && org in s.onboarded && (user != s.t.orgs[org] || org in s.orphaned)
  }

  predicate OfInvite(s: State, token: string, org: string, role: Role) {
    token in s.t.invites && s.t.invites[token].org == org && s.t.invites[token].role == role
  }

  predicate PhaseOk(s: State, p: Phase) {
    match p
    case NotOnboarded(_) => true
    case Authed(req) => req.org in s.t.orgs && req.org in s.onboarded
    case OrgMade(user, org) => org in s.t.orgs && s.t.orgs[org] == user && org !in s.onboarded
    case MayUpdate(org, user, role) => !role.Owner? && Harmless(s, org, user)
    case FoundOwner(org, _) => true
    case MayRemove(org, user) => Harmless(s, org, user)
    case Fetched(token, org, role, _) => OfInvite(s, token, org, role)
    case Outsider(token, org, role, user) => OfInvite(s, token, org, role) && Harmless(s, org, user)
    case Admitting(token, org, role, user) =>
      OfInvite(s, token, org, role) && Harmless(s, org, user) && s.t.invites[token].acceptedBy == Some(user)
  }

  ghost predicate ProcsOk(s: State) {
    forall p :: p in s.procs ==> PhaseOk(s, s.procs[p])
  }

  /** No two requests are about to add the owner of one organisation, or to admit through one invite. */
  predicate Apart(p: Phase, q: Phase) {
    && (p.OrgMade? && q.OrgMade? ==> p.org != q.org)
    && (p.Admitting? && q.Admitting? ==> p.token != q.token)
  }

  ghost predicate ProcsApart(s: State) {
    forall p, q :: p in s.procs && q in s.procs && p != q ==> Apart(s.procs[p], s.procs[q])
  }

  ghost predicate MembersOk(s: State) {
    forall k :: k in s.t.members ==>
      k.0 in s.t.orgs && k.0 in s.onboarded && (s.t.members[k].role.Owner? ==> k.1 == s.t.orgs[k.0])
  }

  ghost predicate OwnersStand(s: State) {
    forall org :: org in s.onboarded && org !in s.orphaned ==> org in s.t.orgs && IsOwner(s.t, org, s.t.orgs[org])
  }

  /** An orphaned organisation has no active owner any more. */
  ghost predicate OwnersRemain(s: State) {
    && s.orphaned <= s.onboarded
    && forall k :: k in s.t.members && s.t.members[k].active && s.t.members[k].role.Owner? ==> k.0 !in s.orphaned
  }

  ghost predicate InvitesOk(s: State) {
    forall token :: token in s.t.invites ==>
      s.t.invites[token].org in s.t.orgs && s.t.invites[token].org in s.onboarded && !s.t.invites[token].role.Owner?
  }

  predicate AdmissionOk(s: State, x: Admission) {
    x.token in s.t.invites && s.t.invites[x.token].acceptedBy == Some(x.user) && x.role == s.t.invites[x.token].role
  }

  ghost predicate AdmissionsOk(s: State) {
    && (forall i :: 0 <= i < |s.admitted| ==> AdmissionOk(s, s.admitted[i]))
    && (forall i, j :: 0 <= i < j < |s.admitted| ==> s.admitted[i].token != s.admitted[j].token)
    && (forall i, p :: 0 <= i < |s.admitted| && p in s.procs && s.procs[p].Admitting? ==> s.procs[p].token != s.admitted[i].token)
  }

  ghost predicate Inv(s: State) {
    ProcsOk(s) && ProcsApart(s) && MembersOk(s) && OwnersStand(s) && OwnersRemain(s) && InvitesOk(s) && AdmissionsOk(s)
    && s.onboarded <= s.t.orgs.Keys
  }

  /** What never goes back: organisations keep their creator, onboarding and orphaning stay, and an invite keeps its
      terms and whoever accepted it. */
  predicate Grows(s: State, s': State) {
    && (forall o :: o in s.t.orgs ==> o in s'.t.orgs && s'.t.orgs[o] == s.t.orgs[o])
    && s.onboarded <= s'.onboarded && s.orphaned <= s'.orphaned
    && (forall k :: k in s.t.invites ==>
         && k in s'.t.invites && s'.t.invites[k].org == s.t.invites[k].org && s'.t.invites[k].role == s.t.invites[k].role
         && (s.t.invites[k].acceptedBy.Some? ==> s'.t.invites[k].acceptedBy == s.t.invites[k].acceptedBy))
  }

  lemma StepGrows(s: State, a: Action)
    requires Enabled(s, a)
    ensures Grows(s, Step(s, a))
  {
  }

  lemma GrownPhaseOk(s: State, s': State, p: Phase)
    requires Grows(s, s') && PhaseOk(s, p) && (p.OrgMade? ==> p.org !in s'.onboarded)
    ensures PhaseOk(s', p)
  {
  }

  lemma OneOwner(s: State, org: string)
    requires MembersOk(s)
    ensures |OwnersOf(s.t, org)| <= 1
  {
    if org in s.t.orgs {
      assert OwnersOf(s.t, org) <= {(org, s.t.orgs[org])};
      SubsetSize(OwnersOf(s.t, org), (org, s.t.orgs[org]));
    } else {
      assert OwnersOf(s.t, org) == {};
    }
  }

  lemma SubsetSize<T>(a: set<T>, x: T)
    requires a <= {x}
    ensures |a| <= 1
  {
    if a != {} { assert a == {x}; }
  }

  /** The phase a request moves to is sound in the state it moves in. */
  lemma NewPhaseOk(s: State, a: Action)
    requires Inv(s) && Enabled(s, a) && PhaseAfter(s, a).Some?
    ensures PhaseOk(Step(s, a), PhaseAfter(s, a).value)
  {
    if a.CountOwners? { OneOwner(s, s.procs[a.pid].org); }
  }

  lemma StepKeepsProcsOk(s: State, a: Action)
    requires Inv(s) && Enabled(s, a)
    ensures ProcsOk(Step(s, a))
  {
    var s' := Step(s, a);
    StepGrows(s, a);
    forall p | p in s'.procs ensures PhaseOk(s', s'.procs[p]) {
      if OfRequest(a) && p == a.pid {
        NewPhaseOk(s, a);
      } else {
        if a.AddOwner? { assert Apart(s.procs[p], s.procs[a.pid]); }
        GrownPhaseOk(s, s', s'.procs[p]);
      }
    }
  }

  lemma NewPhaseApart(s: State, a: Action, q: nat)
    requires Inv(s) && Enabled(s, a) && PhaseAfter(s, a).Some? && q in s.procs && q != a.pid
    ensures Apart(PhaseAfter(s, a).value, s.procs[q]) && Apart(s.procs[q], PhaseAfter(s, a).value)
  {
  }

  lemma StepKeepsProcsApart(s: State, a: Action)
    requires Inv(s) && Enabled(s, a)
    ensures ProcsApart(Step(s, a))
  {
    var s' := Step(s, a);
    forall p, q | p in s'.procs && q in s'.procs && p != q ensures Apart(s'.procs[p], s'.procs[q]) {
      if OfRequest(a) && p == a.pid {
        NewPhaseApart(s, a, q);
      } else if OfRequest(a) && q == a.pid {
        NewPhaseApart(s, a, p);
      }
    }
  }

  predicate WritesMembers(a: Action) {
    a.AddOwner? || a.AddInvited? || a.WriteRole? || a.WriteRemove? || a.DeleteUser?
  }

  lemma OthersLeaveMembers(s: State, a: Action)
    requires Enabled(s, a) && !WritesMembers(a)
    ensures Step(s, a).t.members == s.t.members && Step(s, a).onboarded == s.onboarded && Step(s, a).orphaned == s.orphaned
  {
  }

  lemma StepKeepsMembersOk(s: State, a: Action)
    requires Inv(s) && Enabled(s, a)
    ensures MembersOk(Step(s, a))
  {
    if !WritesMembers(a) {
      StepGrows(s, a);
      OthersLeaveMembers(s, a);
    } else if !a.DeleteUser? {
      assert PhaseOk(s, s.procs[a.pid]);
    }
  }

  lemma WriteKeepsOwners(s: State, a: Action)
    requires Inv(s) && Enabled(s, a) && (a.AddInvited? || a.WriteRole? || a.WriteRemove?)
    ensures OwnersStand(Step(s, a))
  {
    assert PhaseOk(s, s.procs[a.pid]);
  }

  lemma StepKeepsOwners(s: State, a: Action)
    requires Inv(s) && Enabled(s, a)
    ensures OwnersStand(Step(s, a))
  {
    if !WritesMembers(a) {
      StepGrows(s, a);
      OthersLeaveMembers(s, a);
    } else if a.AddOwner? {
      assert PhaseOk(s, s.procs[a.pid]);
    } else if !a.DeleteUser? {
      WriteKeepsOwners(s, a);
    }
  }

  lemma StepKeepsOwnersRemain(s: State, a: Action)
    requires Inv(s) && Enabled(s, a)
    ensures OwnersRemain(Step(s, a))
  {
    if !WritesMembers(a) {
      StepGrows(s, a);
      OthersLeaveMembers(s, a);
    } else if !a.DeleteUser? {
      assert PhaseOk(s, s.procs[a.pid]);
    }
  }

  lemma StepKeepsInvitesOk(s: State, a: Action)
    requires Inv(s) && Enabled(s, a)
    ensures InvitesOk(Step(s, a))
  {
    if a.MakeInvite? { assert PhaseOk(s, s.procs[a.pid]); }
  }

  lemma StepKeepsAdmissions(s: State, a: Action)
    requires Inv(s) && Enabled(s, a)
    ensures AdmissionsOk(Step(s, a))
  {
    var s' := Step(s, a);
    StepGrows(s, a);
    forall i | 0 <= i < |s'.admitted| ensures AdmissionOk(s', s'.admitted[i]) {
      if i < |s.admitted| {
        assert AdmissionOk(s, s.admitted[i]);
      } else {
        assert PhaseOk(s, s.procs[a.pid]);
      }
    }
    forall i, p | 0 <= i < |s'.admitted| && p in s'.procs && s'.procs[p].Admitting?
      ensures s'.procs[p].token != s'.admitted[i].token
    {
      if i < |s.admitted| {
        assert AdmissionOk(s, s.admitted[i]);
      } else {
        assert Apart(s.procs[p], s.procs[a.pid]);
      }
    }
  }

  lemma ApplyKeepsInv(s: State, a: Action)
    requires Inv(s)
    ensures Inv(Apply(s, a))
  {
    if Enabled(s, a) {
      StepKeepsProcsOk(s, a);
      StepKeepsProcsApart(s, a);
      StepKeepsMembersOk(s, a);
      StepKeepsOwners(s, a);
      StepKeepsOwnersRemain(s, a);
      StepKeepsInvitesOk(s, a);
      StepKeepsAdmissions(s, a);
      if a.AddOwner? { assert PhaseOk(s, s.procs[a.pid]); }
    }
  }

  lemma {:induction false} ExecKeepsInv(s: State, run: seq<Action>)
    requires Inv(s)
    ensures Inv(Exec(s, run))
    decreases |run|
  {
    if run != [] {
      ApplyKeepsInv(s, run[0]);
      ExecKeepsInv(Apply(s, run[0]), run[1..]);
    }
  }

  // ---- Main results ----

  /** In every interleaving an organisation has at most one active owner, and it is its creator; once the owner
      has been added it stays, until the creator's account is deleted. */
  lemma SoleOwner(run: seq<Action>, org: string)
    ensures var s := Exec(START, run);
      && |OwnersOf(s.t, org)| <= 1
      && (forall user :: IsOwner(s.t, org, user) ==> org in s.t.orgs && user == s.t.orgs[org])
      && (org in s.onboarded && org !in s.orphaned ==> org in s.t.orgs && IsOwner(s.t, org, s.t.orgs[org]))
  {
    ExecKeepsInv(START, run);
    OneOwner(Exec(START, run), org);
  }

  /** Only deleting the creator's account orphans an organisation. */
  lemma {:induction false} OwnerStaysUntilDeleted(before: seq<Action>, after: seq<Action>, org: string)
    requires var s := Exec(START, before); org in s.onboarded && org !in s.orphaned && org in s.t.orgs
    requires var creator := Exec(START, before).t.orgs[org]; DeleteUser(creator) !in after
    ensures var s' := Exec(Exec(START, before), after);
      var creator := Exec(START, before).t.orgs[org];
      IsOwner(s'.t, org, creator)
  {
    ExecKeepsInv(START, before);
    NotOrphaned(Exec(START, before), after, org);
    ExecKeepsInv(Exec(START, before), after);
  }

  lemma {:induction false} NotOrphaned(s: State, run: seq<Action>, org: string)
    requires org in s.onboarded && org !in s.orphaned && org in s.t.orgs && DeleteUser(s.t.orgs[org]) !in run
    ensures var s' := Exec(s, run);
      org in s'.onboarded && org !in s'.orphaned && org in s'.t.orgs && s'.t.orgs[org] == s.t.orgs[org]
    decreases |run|
  {
    if run != [] {
      if Enabled(s, run[0]) { StepGrows(s, run[0]); }
      assert run[0] in run && forall a :: a in run[1..] ==> a in run;
      NotOrphaned(Apply(s, run[0]), run[1..], org);
    }
  }

  /** Each invite admits at most one user, the one who is recorded as having accepted it, and never as owner. */
  lemma InviteAdmitsOne(run: seq<Action>, i: nat, j: nat)
    requires var s := Exec(START, run); i < |s.admitted| && j < |s.admitted|
    ensures var s := Exec(START, run);
      && (s.admitted[i].token == s.admitted[j].token ==> i == j)
      && s.admitted[i].token in s.t.invites && s.t.invites[s.admitted[i].token].acceptedBy == Some(s.admitted[i].user)
      && !s.admitted[i].role.Owner?
  {
    ExecKeepsInv(START, run);
    assert AdmissionOk(Exec(START, run), Exec(START, run).admitted[i]);
  }

  /** At some step of the run this user, then the owner, was let through to delete the organisation. */
  predicate AsksToDelete(s: State, run: seq<Action>, org: string, user: string)
    decreases |run|
  {
    run != [] &&
      ((Enabled(s, run[0]) && run[0].Authorise? && run[0].caller == user && run[0].req == DeleteReq(org) && IsOwner(s.t, org, user))
       || AsksToDelete(Apply(s, run[0]), run[1..], org, user))
  }

  predicate BeingDeleted(s: State, org: string) {
    org in s.t.deleted || exists pid :: pid in s.procs && s.procs[pid] == Authed(DeleteReq(org))
  }

  lemma {:induction false} DeletionWasAsked(s: State, run: seq<Action>, org: string)
    requires Inv(s) && !BeingDeleted(s, org) && BeingDeleted(Exec(s, run), org)
    ensures org in Exec(s, run).t.orgs && AsksToDelete(s, run, org, Exec(s, run).t.orgs[org])
    decreases |run|
  {
    if run != [] {
      var a, s' := run[0], Apply(s, run[0]);
      ApplyKeepsInv(s, a);
      if BeingDeleted(s', org) {
        DeletionStarts(s, a, org);
        OrgKeepsCreator(s', run[1..], org);
      } else {
        DeletionWasAsked(s', run[1..], org);
      }
    }
  }

  /** Only the owner's request starts it. */
  lemma DeletionStarts(s: State, a: Action, org: string)
    requires Inv(s) && Enabled(s, a) && !BeingDeleted(s, org) && BeingDeleted(Step(s, a), org)
    ensures a.Authorise? && a.req == DeleteReq(org) && IsOwner(s.t, org, a.caller)
    ensures org in s.t.orgs && s.t.orgs[org] == a.caller && Step(s, a).t.orgs == s.t.orgs
  {
    var s' := Step(s, a);
    if org in s'.t.deleted {
      assert false;
    } else {
      var pid :| pid in s'.procs && s'.procs[pid] == Authed(DeleteReq(org));
      assert (org, a.caller) in s.t.members;
    }
  }

  lemma {:induction false} OrgKeepsCreator(s: State, run: seq<Action>, org: string)
    requires org in s.t.orgs
    ensures org in Exec(s, run).t.orgs && Exec(s, run).t.orgs[org] == s.t.orgs[org]
    decreases |run|
  {
    if run != [] {
      if Enabled(s, run[0]) { StepGrows(s, run[0]); }
      OrgKeepsCreator(Apply(s, run[0]), run[1..], org);
    }
  }

  /** In every interleaving an organisation is deleted only after its creator, being its owner at that moment, asked for
      it. */
  lemma OnlyTheCreatorDeletes(run: seq<Action>, org: string)
    requires org in Exec(START, run).t.deleted
    ensures org in Exec(START, run).t.orgs && AsksToDelete(START, run, org, Exec(START, run).t.orgs[org])
  {
    DeletionWasAsked(START, run, org);
  }

  // ---- What the checks do not prevent ----

  lemma {:induction false} ExecSplit(s: State, a: seq<Action>, b: seq<Action>)
    ensures Exec(s, a + b) == Exec(Exec(s, a), b)
    decreases |a|
  {
    if a == [] {
      assert a + b == b;
    } else {
      assert (a + b)[0] == a[0] && (a + b)[1..] == a[1..] + b;
      ExecSplit(Apply(s, a[0]), a[1..], b);
    }
  }

  lemma OneStep(s: State, a: Action)
    ensures Exec(s, [a]) == Apply(s, a)
  {
    assert [a][1..] == [];
  }

  lemma TwoSteps(s: State, a: Action, b: Action)
    ensures Exec(s, [a, b]) == Apply(Apply(s, a), b)
  {
    assert [a, b][1..] == [b] && [b][1..] == [];
    assert Exec(s, [a, b]) == Exec(Apply(s, a), [b]);
  }

  lemma ThreeSteps(s: State, a: Action, b: Action, c: Action)
    ensures Exec(s, [a, b, c]) == Apply(Apply(Apply(s, a), b), c)
  {
    assert [a, b, c][1..] == [b, c];
    TwoSteps(Apply(s, a), b, c);
  }

  lemma MakeThenAdd(s: State, pid: nat, user: string, org: string)
    requires pid in s.procs && s.procs[pid] == NotOnboarded(user) && org !in s.t.orgs
    ensures var s' := Exec(s, [MakeOrg(pid, org), AddOwner(pid)]);
      s'.t == MemberAdded(OrgAdded(s.t, org, user), org, user, Owner) && s'.procs == s.procs - {pid}
  {
    TwoSteps(s, MakeOrg(pid, org), AddOwner(pid));
    assert Apply(s, MakeOrg(pid, org)).procs == s.procs[pid := OrgMade(user, org)];
  }

  lemma BothWaiting(user: string)
    ensures var s := Exec(START, [Onboard(1, user), Onboard(2, user)]);
      s.t == EMPTY && s.procs == map[1 := NotOnboarded(user), 2 := NotOnboarded(user)]
  {
    TwoSteps(START, Onboard(1, user), Onboard(2, user));
  }

  /** Two onboarding requests of one user that both find no organisation leave the user with two. */
  lemma OnboardingTwice(user: string, org1: string, org2: string)
    requires org1 != org2
    ensures var s := Exec(START, [Onboard(1, user), Onboard(2, user)] + ([MakeOrg(1, org1), AddOwner(1)] + [MakeOrg(2, org2), AddOwner(2)]));
      IsOwner(s.t, org1, user) && IsOwner(s.t, org2, user)
  {
    BothWaiting(user);
    var s1 := Exec(START, [Onboard(1, user), Onboard(2, user)]);
    ExecSplit(START, [Onboard(1, user), Onboard(2, user)], [MakeOrg(1, org1), AddOwner(1)] + [MakeOrg(2, org2), AddOwner(2)]);
    ExecSplit(s1, [MakeOrg(1, org1), AddOwner(1)], [MakeOrg(2, org2), AddOwner(2)]);
    MakeThenAdd(s1, 1, user, org1);
    MakeThenAdd(Exec(s1, [MakeOrg(1, org1), AddOwner(1)]), 2, user, org2);
  }

  // ---- Handlers are runs ----

  /** A statement of a request that is over does nothing. */
  lemma Over(s: State, a: Action)
    requires OfRequest(a) && !a.Onboard? && !a.Authorise? && !a.FetchInvite? && a.pid !in s.procs
    ensures Apply(s, a) == s
  {
  }

  /** An uninterrupted onboarding is a run of its three statements, whatever it answers. */
  lemma OnboardingIsARun(s: State, pid: nat, user: string, org: string)
    requires pid !in s.procs && org !in s.t.orgs
    ensures Exec(s, [Onboard(pid, user)] + [MakeOrg(pid, org), AddOwner(pid)]).t == Onboarded(s.t, user, org).0
  {
    ExecSplit(s, [Onboard(pid, user)], [MakeOrg(pid, org), AddOwner(pid)]);
    var s1 := Exec(s, [Onboard(pid, user)]);
    assert s1 == Apply(s, Onboard(pid, user));
    if BelongsSomewhere(s.t, user) {
      TwoSteps(s1, MakeOrg(pid, org), AddOwner(pid));
      Over(s1, MakeOrg(pid, org));
      Over(s1, AddOwner(pid));
    } else {
      MakeThenAdd(s1, pid, user, org);
    }
  }

  /** So is a role change, whatever it answers. */
  lemma UpdateIsARun(s: State, pid: nat, org: string, caller: string, target: string, role: Role)
    requires pid !in s.procs
    ensures Exec(s, [Authorise(pid, caller, UpdateReq(org, target, role)), CheckUpdate(pid), WriteRole(pid)]).t
         == Updated(s.t, org, caller, target, role).0
  {
    var req := UpdateReq(org, target, role);
    ThreeSteps(s, Authorise(pid, caller, req), CheckUpdate(pid), WriteRole(pid));
    var s1 := Apply(s, Authorise(pid, caller, req));
    if Authorised(s.t, org, caller, Admin) {
      assert s1.t == s.t && s1.procs == s.procs[pid := Authed(req)];
    } else {
      Over(s1, CheckUpdate(pid));
    }
  }

  /** The removal of an owner is counted first; the count is skipped for anybody else. */
  lemma AuthorisedRemoval(s: State, pid: nat, org: string, target: string)
    requires pid in s.procs && s.procs[pid] == Authed(RemoveReq(org, target))
    ensures var s' := Apply(Apply(Apply(s, CheckRemove(pid)), CountOwners(pid)), WriteRemove(pid));
      s'.t == if !IsActive(s.t, org, target) || (IsOwner(s.t, org, target) && |OwnersOf(s.t, org)| <= 1) then s.t
              else MemberRemoved(s.t, org, target)
  {
    var s1 := Apply(s, CheckRemove(pid));
    var s2 := Apply(s1, CountOwners(pid));
    if !IsActive(s.t, org, target) {
      Over(s1, CountOwners(pid));
      Over(s2, WriteRemove(pid));
    } else if IsOwner(s.t, org, target) {
      assert s1.t == s.t && s1.procs[pid] == FoundOwner(org, target);
      if |OwnersOf(s.t, org)| <= 1 { Over(s2, WriteRemove(pid)); }
    } else {
      assert s1.t == s.t && s1.procs[pid] == MayRemove(org, target) && s2 == s1;
    }
  }

  /** So is a removal. */
  lemma RemoveIsARun(s: State, pid: nat, org: string, caller: string, target: string)
    requires pid !in s.procs
    ensures Exec(s, [Authorise(pid, caller, RemoveReq(org, target))] + [CheckRemove(pid), CountOwners(pid), WriteRemove(pid)]).t
         == Removed(s.t, org, caller, target).0
  {
    var first := Authorise(pid, caller, RemoveReq(org, target));
    var s1 := Apply(s, first);
    OneStep(s, first);
    ExecSplit(s, [first], [CheckRemove(pid), CountOwners(pid), WriteRemove(pid)]);
    ThreeSteps(s1, CheckRemove(pid), CountOwners(pid), WriteRemove(pid));
    if Authorised(s.t, org, caller, Admin) {
      AuthorisedRemoval(s1, pid, org, target);
    } else {
      Over(s1, CheckRemove(pid));
      Over(s1, CountOwners(pid));
      Over(s1, WriteRemove(pid));
    }
  }

  /** And so are inviting, revoking and deleting the organisation. */
  lemma InviteIsARun(s: State, pid: nat, org: string, caller: string, token: string, role: Role)
    requires pid !in s.procs && token !in s.t.invites
    ensures Exec(s, [Authorise(pid, caller, InviteReq(org, role)), MakeInvite(pid, token)]).t
         == Invited(s.t, org, caller, token, role).0
  {
    TwoSteps(s, Authorise(pid, caller, InviteReq(org, role)), MakeInvite(pid, token));
  }

  lemma RevokeIsARun(s: State, pid: nat, org: string, caller: string, token: string)
    requires pid !in s.procs
    ensures Exec(s, [Authorise(pid, caller, RevokeReq(org, token)), Revoke(pid)]).t == Revoked(s.t, org, caller, token).0
  {
    TwoSteps(s, Authorise(pid, caller, RevokeReq(org, token)), Revoke(pid));
  }

  lemma DeleteIsARun(s: State, pid: nat, org: string, caller: string)
    requires pid !in s.procs
    ensures Exec(s, [Authorise(pid, caller, DeleteReq(org)), DeleteOrg(pid, org)]).t == Deleted(s.t, org, caller).0
  {
    TwoSteps(s, Authorise(pid, caller, DeleteReq(org)), DeleteOrg(pid, org));
  }

  /** Up to the check that the user is no member yet. */
  lemma AcceptChecks(s: State, pid: nat, token: string, user: string)
    requires pid !in s.procs
    ensures var s1 := Exec(s, [FetchInvite(pid, token, user), CheckOutsider(pid)]);
      && s1.t == s.t
      && if Open(s.t, token) && !s.t.invites[token].expired && !IsActive(s.t, s.t.invites[token].org, user)
         then s1.procs == s.procs[pid := Outsider(token, s.t.invites[token].org, s.t.invites[token].role, user)]
         else pid !in s1.procs
  {
    TwoSteps(s, FetchInvite(pid, token, user), CheckOutsider(pid));
    var s0 := Apply(s, FetchInvite(pid, token, user));
    if Open(s.t, token) && !s.t.invites[token].expired {
      assert s0.t == s.t && s0.procs == s.procs[pid := Fetched(token, s.t.invites[token].org, s.t.invites[token].role, user)];
    } else {
      Over(s0, CheckOutsider(pid));
    }
  }

  lemma AcceptWrites(s: State, pid: nat, token: string, org: string, role: Role, user: string)
    requires pid in s.procs && s.procs[pid] == Outsider(token, org, role, user) && Open(s.t, token)
    ensures Exec(s, [MarkAccepted(pid), AddInvited(pid)]).t == MemberAdded(InviteAccepted(s.t, token, user), org, user, role)
  {
    TwoSteps(s, MarkAccepted(pid), AddInvited(pid));
    var s1 := Apply(s, MarkAccepted(pid));
    assert s1.t == InviteAccepted(s.t, token, user) && s1.procs == s.procs[pid := Admitting(token, org, role, user)];
  }

  /** So is accepting an invite. */
  lemma AcceptIsARun(s: State, pid: nat, token: string, user: string)
    requires pid !in s.procs
    ensures Exec(s, [FetchInvite(pid, token, user), CheckOutsider(pid)] + [MarkAccepted(pid), AddInvited(pid)]).t
         == Accepted(s.t, token, user).0
  {
    var s1 := Exec(s, [FetchInvite(pid, token, user), CheckOutsider(pid)]);
    ExecSplit(s, [FetchInvite(pid, token, user), CheckOutsider(pid)], [MarkAccepted(pid), AddInvited(pid)]);
    AcceptChecks(s, pid, token, user);
    if Open(s.t, token) && !s.t.invites[token].expired && !IsActive(s.t, s.t.invites[token].org, user) {
      AcceptWrites(s1, pid, token, s.t.invites[token].org, s.t.invites[token].role, user);
    } else {
      TwoSteps(s1, MarkAccepted(pid), AddInvited(pid));
      Over(s1, MarkAccepted(pid));
      Over(s1, AddInvited(pid));
    }
  }
}
