/** When a user can create a second organisation: the check of the onboarding handler
    (internal/api/handlers/cloud_handlers.go) against everything the members of the first one can still do. */
module SecondOrganisation {
  import opened Wrappers
  import opened Membership
  import opened MembershipRuns

  /** What the check looks for: an active membership of an organisation that is not deleted. */
  predicate Holds(s: State, org: string, user: string) {
    IsActive(s.t, org, user) && org !in s.t.deleted
  }

  /** A request of the user has passed the check and not made its organisation yet. */
  predicate HasPassed(s: State, user: string) {
    exists pid :: pid in s.procs && s.procs[pid] == NotOnboarded(user)
  }

  predicate HasAdmin(s: State, org: string) {
    exists k :: k in s.t.members && k.0 == org && Authorised(s.t, org, k.1, Admin)
  }

  /** An invite of the organisation that anybody can still accept. */
  predicate Acceptable(t: Tables, token: string, org: string) {
    Open(t, token) && !t.invites[token].expired && t.invites[token].org == org
  }

  /** A request in flight that can still add the user to the organisation. */
  predicate Admits(t: Tables, p: Phase, org: string, user: string) {
    match p
    case Fetched(token, o, _, v) => o == org && v == user && Open(t, token)
    case Outsider(token, o, _, v) => o == org && v == user && Open(t, token)
    case Admitting(_, o, _, v) => o == org && v == user
    case _ => false
  }

  predicate IsInviteReq(p: Phase, org: string) {
    p.Authed? && p.req.InviteReq? && p.req.org == org && !p.req.role.Owner?
  }

  /** The user is a member, or can still become one without anybody's leave. */
  predicate CanJoin(s: State, org: string, user: string) {
    || IsActive(s.t, org, user)
    || (exists token :: token in s.t.invites && Acceptable(s.t, token, org))
    || (exists pid :: pid in s.procs && IsInviteReq(s.procs[pid], org))
    || (exists pid :: pid in s.procs && Admits(s.t, s.procs[pid], org, user))
  }

  /** A request in flight that can still remove the user, delete the organisation, or give it an admin. */
  predicate Elevates(s: State, p: Phase, org: string, user: string) {
    match p
    case Authed(RemoveReq(o, target)) => o == org && target == user
    case Authed(DeleteReq(o)) => o == org
    case Authed(InviteReq(o, role)) => o == org && role.Admin?
    case Authed(UpdateReq(o, target, role)) => o == org && role.Admin? && CanJoin(s, org, target)
    case MayRemove(o, target) => o == org && target == user
    case MayUpdate(o, target, role) => o == org && role.Admin? && CanJoin(s, org, target)
    case Outsider(token, o, role, _) => o == org && role.Admin? && Open(s.t, token)
    case Admitting(_, o, role, _) => o == org && role.Admin?
    case _ => false
  }

  /** So can the request of somebody else who has fetched an admin invite, once that user is no member. */
  predicate ElevatesLate(t: Tables, p: Phase, org: string, user: string) {
    p.Fetched? && p.org == org && p.role.Admin? && Open(t, p.token) && p.user != user
  }

  predicate LeftEarly(s: State, org: string, user: string) {
    || HasAdmin(s, org)
    || (exists token :: token in s.t.invites && Acceptable(s.t, token, org) && s.t.invites[token].role.Admin?)
    || (exists pid :: pid in s.procs && Elevates(s, s.procs[pid], org, user))
  }

  predicate LeftLate(s: State, org: string, user: string) {
    exists pid :: pid in s.procs && ElevatesLate(s.t, s.procs[pid], org, user)
  }

  /** The organisation has an admin, has an admin invite to be accepted, or has a request in flight that needs none. */
  predicate CanBeLeft(s: State, org: string, user: string) {
    LeftEarly(s, org, user) || LeftLate(s, org, user)
  }

  ghost predicate Creates(s: State, run: seq<Action>, user: string) {
    exists org :: org !in s.t.orgs && org in Exec(s, run).t.orgs && Exec(s, run).t.orgs[org] == user
  }

  /** Without a deletion of the account, or of an organisation the user owns. */
  predicate Undisturbed(s: State, run: seq<Action>, user: string) {
    DeleteUser(user) !in run && forall a :: a in run && a.DeleteOrg? ==> !IsOwner(s.t, a.org, user)
  }

  // ---- An organisation that cannot be left is never left ----

  /** The second state has no organisation of the user that the first has not. */
  predicate NoNewOrg(s: State, s': State, user: string) {
    forall o :: o in s'.t.orgs && s'.t.orgs[o] == user ==> o in s.t.orgs && s.t.orgs[o] == user
  }

  lemma NobodyPasses(s: State, a: Action, user: string)
    requires Enabled(s, a) && !HasPassed(s, user) && (a.Onboard? ==> a.user != user)
    ensures !HasPassed(Step(s, a), user)
  {
    forall pid | pid in ProcsAfter(s, a) ensures ProcsAfter(s, a)[pid] != NotOnboarded(user) {
      if pid in s.procs { assert s.procs[pid] != NotOnboarded(user); }
    }
  }

  lemma NoNewOrgStep(s: State, a: Action, user: string)
    requires Enabled(s, a) && !HasPassed(s, user)
    ensures NoNewOrg(s, Step(s, a), user)
  {
    if a.MakeOrg? { assert s.procs[a.pid] != NotOnboarded(user); }
  }

  /** Nobody is added to an organisation with members as its owner. */
  lemma NoOwnerAdded(s: State, a: Action, org: string, user: string)
    requires Inv(s) && Enabled(s, a) && a.AddOwner? && IsActive(s.t, org, user)
    ensures s.procs[a.pid].org != org
  {
    assert (org, user) in s.t.members && PhaseOk(s, s.procs[a.pid]);
  }

  lemma NewInvite(s: State, a: Action, token: string, org: string)
    requires Enabled(s, a) && Acceptable(Step(s, a).t, token, org)
    ensures Acceptable(s.t, token, org)
         || (a.MakeInvite? && IsInviteReq(s.procs[a.pid], org) && s.procs[a.pid].req.role == Step(s, a).t.invites[token].role)
    ensures Acceptable(s.t, token, org) ==> s.t.invites[token].role == Step(s, a).t.invites[token].role
  {
  }

  /** An invite that a request has fetched is not opened again. */
  lemma InviteOfPhase(s: State, a: Action, p: Phase)
    requires Enabled(s, a) && PhaseOk(s, p)
    ensures (p.Fetched? || p.Outsider?) && Open(Step(s, a).t, p.token) ==> Open(s.t, p.token)
  {
  }

  lemma NewAdmission(s: State, a: Action, pid: nat, org: string, v: string)
    requires Inv(s) && Enabled(s, a)
    requires pid in Step(s, a).procs && Admits(Step(s, a).t, Step(s, a).procs[pid], org, v)
    ensures (pid in s.procs && Admits(s.t, s.procs[pid], org, v)) || (a.FetchInvite? && Acceptable(s.t, a.token, org))
  {
    if pid in s.procs { InviteOfPhase(s, a, s.procs[pid]); }
  }

  lemma NewInviteReq(s: State, a: Action, pid: nat, org: string)
    requires Enabled(s, a) && pid in Step(s, a).procs && IsInviteReq(Step(s, a).procs[pid], org)
    ensures (pid in s.procs && IsInviteReq(s.procs[pid], org)) || HasAdmin(s, org)
  {
    if a.Authorise? && a.pid == pid { assert (org, a.caller) in s.t.members; }
  }

  lemma NewMember(s: State, a: Action, org: string, user: string, v: string)
    requires Inv(s) && Enabled(s, a) && IsActive(s.t, org, user) && IsActive(Step(s, a).t, org, v)
    ensures CanJoin(s, org, v)
  {
    if a.AddOwner? {
      NoOwnerAdded(s, a, org, user);
    } else if !IsActive(s.t, org, v) {
      assert Admits(s.t, s.procs[a.pid], org, v);
    }
  }

  /** Who can join after a step could before, or was let in by an admin. */
  lemma NobodyJoins(s: State, a: Action, org: string, user: string, v: string)
    requires Inv(s) && Enabled(s, a) && IsActive(s.t, org, user) && CanJoin(Step(s, a), org, v)
    ensures CanJoin(s, org, v) || HasAdmin(s, org)
  {
    var s' := Step(s, a);
    if IsActive(s'.t, org, v) {
      NewMember(s, a, org, user, v);
    } else if token :| token in s'.t.invites && Acceptable(s'.t, token, org) {
      NewInvite(s, a, token, org);
    } else if pid :| pid in s'.procs && IsInviteReq(s'.procs[pid], org) {
      NewInviteReq(s, a, pid, org);
    } else {
      var pid :| pid in s'.procs && Admits(s'.t, s'.procs[pid], org, v);
      NewAdmission(s, a, pid, org, v);
    }
  }

  lemma NewAdmin(s: State, a: Action, org: string, user: string, v: string)
    requires Inv(s) && Enabled(s, a) && (a.WriteRole? || a.AddInvited?)
    requires Authorised(Step(s, a).t, org, v, Admin) && !Authorised(s.t, org, v, Admin)
    ensures Elevates(s, s.procs[a.pid], org, user)
  {
    assert PhaseOk(s, s.procs[a.pid]);
  }

  lemma NobodyRises(s: State, a: Action, org: string, user: string)
    requires Inv(s) && Enabled(s, a) && IsActive(s.t, org, user) && HasAdmin(Step(s, a), org)
    ensures LeftEarly(s, org, user)
  {
    var k :| k in Step(s, a).t.members && k.0 == org && Authorised(Step(s, a).t, org, k.1, Admin);
    assert k == (org, k.1);
    if Authorised(s.t, org, k.1, Admin) {
      assert k in s.t.members;
    } else if a.AddOwner? {
      NoOwnerAdded(s, a, org, user);
    } else {
      NewAdmin(s, a, org, user, k.1);
    }
  }

  lemma NoAdminInvited(s: State, a: Action, token: string, org: string, user: string)
    requires Enabled(s, a) && Acceptable(Step(s, a).t, token, org) && Step(s, a).t.invites[token].role.Admin?
    ensures LeftEarly(s, org, user)
  {
    NewInvite(s, a, token, org);
    if !Acceptable(s.t, token, org) { assert Elevates(s, s.procs[a.pid], org, user); }
  }

  lemma NewElevation(s: State, a: Action, org: string, user: string)
    requires Inv(s) && Enabled(s, a) && IsActive(s.t, org, user) && !HasAdmin(s, org)
    requires PhaseAfter(s, a).Some? && Elevates(Step(s, a), PhaseAfter(s, a).value, org, user) && OfRequest(a)
    requires var p := PhaseAfter(s, a).value;
      && (p.MayUpdate? ==> CanJoin(s, org, p.user))
      && (p.Authed? && p.req.UpdateReq? ==> CanJoin(s, org, p.req.target))
    ensures CanBeLeft(s, org, user)
  {
    if a.CheckUpdate? || a.CheckRemove? || a.MarkAccepted? {
      assert Elevates(s, s.procs[a.pid], org, user);
    } else if a.CountOwners? {
      OneOwner(s, s.procs[a.pid].org);
    } else if a.CheckOutsider? {
      assert ElevatesLate(s.t, s.procs[a.pid], org, user);
    }
  }

  /** The same for a request that the step leaves as it is. */
  lemma OldElevation(s: State, a: Action, pid: nat, org: string, user: string)
    requires Inv(s) && Enabled(s, a) && pid in s.procs && Elevates(Step(s, a), s.procs[pid], org, user)
    requires var p := s.procs[pid];
      && (p.MayUpdate? ==> CanJoin(s, org, p.user))
      && (p.Authed? && p.req.UpdateReq? ==> CanJoin(s, org, p.req.target))
    ensures Elevates(s, s.procs[pid], org, user)
  {
    assert PhaseOk(s, s.procs[pid]);
  }

  /** A request that elevates did so before the step, or somebody was admin who let it in. */
  lemma NoRequestElevates(s: State, a: Action, pid: nat, org: string, user: string)
    requires Inv(s) && Enabled(s, a) && IsActive(s.t, org, user) && !HasAdmin(s, org)
    requires pid in Step(s, a).procs && Elevates(Step(s, a), Step(s, a).procs[pid], org, user)
    ensures CanBeLeft(s, org, user)
  {
    var p := Step(s, a).procs[pid];
    if p.MayUpdate? {
      NobodyJoins(s, a, org, user, p.user);
    } else if p.Authed? && p.req.UpdateReq? {
      NobodyJoins(s, a, org, user, p.req.target);
    }
    if OfRequest(a) && a.pid == pid {
      NewElevation(s, a, org, user);
    } else {
      OldElevation(s, a, pid, org, user);
    }
  }

  lemma NoRequestElevatesLate(s: State, a: Action, pid: nat, org: string, user: string)
    requires Inv(s) && Enabled(s, a) && pid in Step(s, a).procs && ElevatesLate(Step(s, a).t, Step(s, a).procs[pid], org, user)
    ensures CanBeLeft(s, org, user)
  {
    if a.FetchInvite? && a.pid == pid {
      assert Acceptable(s.t, a.token, org);
    } else {
      InviteOfPhase(s, a, s.procs[pid]);
      assert ElevatesLate(s.t, s.procs[pid], org, user);
    }
  }

  lemma PowerlessStays(s: State, a: Action, org: string, user: string)
    requires Inv(s) && Enabled(s, a) && IsActive(s.t, org, user) && !CanBeLeft(s, org, user)
    ensures !CanBeLeft(Step(s, a), org, user)
  {
    var s' := Step(s, a);
    if HasAdmin(s', org) {
      NobodyRises(s, a, org, user);
    } else if token :| token in s'.t.invites && Acceptable(s'.t, token, org) && s'.t.invites[token].role.Admin? {
      NoAdminInvited(s, a, token, org, user);
    } else if pid :| pid in s'.procs && Elevates(s', s'.procs[pid], org, user) {
      NoRequestElevates(s, a, pid, org, user);
    } else if pid :| pid in s'.procs && ElevatesLate(s'.t, s'.procs[pid], org, user) {
      NoRequestElevatesLate(s, a, pid, org, user);
    }
  }

  lemma PowerlessHolds(s: State, a: Action, org: string, user: string)
    requires Enabled(s, a) && Holds(s, org, user) && !CanBeLeft(s, org, user) && a != DeleteUser(user)
    ensures Holds(Step(s, a), org, user)
  {
    if a.WriteRemove? || a.DeleteOrg? { assert !Elevates(s, s.procs[a.pid], org, user); }
  }

  lemma OwnerHolds(s: State, a: Action, org: string, user: string)
    requires Inv(s) && Enabled(s, a) && Holds(s, org, user) && IsOwner(s.t, org, user)
    requires a != DeleteUser(user) && (a.DeleteOrg? ==> a.org != org)
    ensures Holds(Step(s, a), org, user) && IsOwner(Step(s, a).t, org, user)
  {
    assert (org, user) in s.t.members && org !in s.orphaned;
    StepGrows(s, a);
    StepKeepsOwners(s, a);
  }

  /** Held for good: owned, or with nobody left who could let the user go. */
  predicate Stuck(s: State, org: string, user: string) {
    Holds(s, org, user) && (IsOwner(s.t, org, user) || !CanBeLeft(s, org, user))
  }

  lemma StuckStays(s: State, a: Action, org: string, user: string)
    requires Inv(s) && Stuck(s, org, user) && !HasPassed(s, user) && a != DeleteUser(user)
    requires a.DeleteOrg? && a.org == org ==> !IsOwner(s.t, org, user)
    ensures var s' := Apply(s, a);
      && Stuck(s', org, user) && !HasPassed(s', user) && NoNewOrg(s, s', user)
      && (IsOwner(s'.t, org, user) ==> IsOwner(s.t, org, user))
  {
    if Enabled(s, a) {
      assert (org, user) in s.t.members;
      NobodyPasses(s, a, user);
      NoNewOrgStep(s, a, user);
      if IsOwner(s.t, org, user) {
        OwnerHolds(s, a, org, user);
      } else {
        PowerlessHolds(s, a, org, user);
        PowerlessStays(s, a, org, user);
      }
    }
  }

  lemma {:induction false} StuckNeverCreates(s: State, run: seq<Action>, org: string, user: string)
    requires Inv(s) && Stuck(s, org, user) && !HasPassed(s, user) && DeleteUser(user) !in run
    requires IsOwner(s.t, org, user) ==> forall a :: a in run && a.DeleteOrg? ==> a.org != org
    ensures NoNewOrg(s, Exec(s, run), user)
    decreases |run|
  {
    if run != [] {
      assert run[0] in run && forall a :: a in run[1..] ==> a in run;
      StuckStays(s, run[0], org, user);
      ApplyKeepsInv(s, run[0]);
      StuckNeverCreates(Apply(s, run[0]), run[1..], org, user);
    }
  }

  // ---- An organisation that can be left is left by some run ----

  function OrgOf(p: Phase): Option<string> {
    match p
    case NotOnboarded(_) => None
    case Authed(req) => Some(req.org)
    case OrgMade(_, org) => Some(org)
    case MayUpdate(org, _, _) => Some(org)
    case FoundOwner(org, _) => Some(org)
    case MayRemove(org, _) => Some(org)
    case Fetched(_, org, _, _) => Some(org)
    case Outsider(_, org, _, _) => Some(org)
    case Admitting(_, org, _, _) => Some(org)
  }

  predicate SameRow(s: State, s': State, org: string, user: string) {
    && ((org, user) in s.t.members <==> (org, user) in s'.t.members)
    && ((org, user) in s.t.members ==> s'.t.members[(org, user)] == s.t.members[(org, user)])
  }

  /** Nothing of other organisations changed that lets the user leave late. */
  ghost predicate Beside(s: State, s': State, org: string, user: string) {
    && s'.t.orgs == s.t.orgs
    && (forall o :: o != org ==> (o in s'.t.deleted <==> o in s.t.deleted))
    && (forall o :: o != org ==> SameRow(s, s', o, user))
    && (forall k :: k in s.t.invites && s.t.invites[k].org != org ==> k in s'.t.invites && s'.t.invites[k] == s.t.invites[k])
    && (forall p :: p in s.procs && OrgOf(s.procs[p]) != Some(org) ==> p in s'.procs && s'.procs[p] == s.procs[p])
  }

  /** Nor anything at all. */
  ghost predicate Elsewhere(s: State, s': State, org: string, user: string) {
    Beside(s, s', org, user) && forall o, v :: o != org ==> SameRow(s, s', o, v)
  }

  /** The requests that wait for somebody to join are still there. */
  ghost predicate Waits(s: State, s': State) {
    forall p :: p in s.procs && (s.procs[p].MayUpdate? || (s.procs[p].Authed? && s.procs[p].req.UpdateReq?)) ==>
      p in s'.procs && s'.procs[p] == s.procs[p]
  }

  predicate Polite(run: seq<Action>, org: string, user: string) {
    forall a :: a in run ==> a != DeleteUser(user) && (a.DeleteOrg? ==> a.org == org)
  }

  /** A statement of a request about this organisation, other than its deletion or the removal of a member. */
  predicate Within(s: State, a: Action, org: string) {
    match a
    case Authorise(_, _, req) => req.org == org
    case FetchInvite(_, token, _) => token in s.t.invites && s.t.invites[token].org == org
    case CheckUpdate(pid) => pid in s.procs && OrgOf(s.procs[pid]) == Some(org)
    case WriteRole(pid) => pid in s.procs && OrgOf(s.procs[pid]) == Some(org)
    case CheckRemove(pid) => pid in s.procs && OrgOf(s.procs[pid]) == Some(org)
    case WriteRemove(pid) => pid in s.procs && OrgOf(s.procs[pid]) == Some(org)
    case MakeInvite(pid, _) => pid in s.procs && OrgOf(s.procs[pid]) == Some(org)
    case CheckOutsider(pid) => pid in s.procs && OrgOf(s.procs[pid]) == Some(org)
    case MarkAccepted(pid) => pid in s.procs && OrgOf(s.procs[pid]) == Some(org)
    case AddInvited(pid) => pid in s.procs && OrgOf(s.procs[pid]) == Some(org)
    case DeleteOrg(_, o) => o == org
    case _ => false
  }

  lemma WithinKeepsRows(s: State, a: Action, org: string, o: string, v: string)
    requires Enabled(s, a) && Within(s, a, org) && o != org
    ensures SameRow(s, Step(s, a), o, v)
  {
  }

  lemma WithinKeepsInvites(s: State, a: Action, org: string, token: string)
    requires Inv(s) && Enabled(s, a) && Within(s, a, org) && token in s.t.invites && s.t.invites[token].org != org
    ensures token in Step(s, a).t.invites && Step(s, a).t.invites[token] == s.t.invites[token]
  {
    if a.MarkAccepted? { assert PhaseOk(s, s.procs[a.pid]); }
  }

  lemma WithinKeepsProcs(s: State, a: Action, org: string, p: nat)
    requires Enabled(s, a) && Within(s, a, org) && p in s.procs && OrgOf(s.procs[p]) != Some(org)
    ensures p in Step(s, a).procs && Step(s, a).procs[p] == s.procs[p]
  {
  }

  lemma WithinStaysElsewhere(s: State, a: Action, org: string, user: string)
    requires Inv(s) && Enabled(s, a) && Within(s, a, org)
    ensures Elsewhere(s, Step(s, a), org, user)
  {
    var s' := Step(s, a);
    forall o, v | o != org ensures SameRow(s, s', o, v) {
      WithinKeepsRows(s, a, org, o, v);
    }
    forall k | k in s.t.invites && s.t.invites[k].org != org ensures k in s'.t.invites && s'.t.invites[k] == s.t.invites[k] {
      WithinKeepsInvites(s, a, org, k);
    }
    forall p | p in s.procs && OrgOf(s.procs[p]) != Some(org) ensures p in s'.procs && s'.procs[p] == s.procs[p] {
      WithinKeepsProcs(s, a, org, p);
    }
  }

  lemma ElsewhereTrans(s: State, s1: State, s2: State, org: string, user: string)
    requires Elsewhere(s, s1, org, user) && Elsewhere(s1, s2, org, user)
    ensures Elsewhere(s, s2, org, user)
  {
    forall o, v | o != org ensures SameRow(s, s2, o, v) {
      assert SameRow(s, s1, o, v) && SameRow(s1, s2, o, v);
    }
  }

  /** A run about this organisation. */
  ghost predicate Goes(s: State, run: seq<Action>, org: string, user: string) {
    Polite(run, org, user) && Elsewhere(s, Exec(s, run), org, user) && Inv(Exec(s, run))
  }

  lemma GoesOn(s: State, first: seq<Action>, rest: seq<Action>, org: string, user: string)
    requires Goes(s, first, org, user) && Goes(Exec(s, first), rest, org, user)
    ensures Goes(s, first + rest, org, user) && Exec(s, first + rest) == Exec(Exec(s, first), rest)
  {
    ExecSplit(s, first, rest);
    ElsewhereTrans(s, Exec(s, first), Exec(Exec(s, first), rest), org, user);
  }

  lemma GoesOneStep(s: State, a: Action, org: string, user: string)
    requires Inv(s) && Enabled(s, a) && Within(s, a, org)
    ensures Goes(s, [a], org, user) && Exec(s, [a]) == Step(s, a)
  {
    OneStep(s, a);
    ApplyKeepsInv(s, a);
    WithinStaysElsewhere(s, a, org, user);
  }

  lemma {:induction false} UnusedNat(used: set<nat>) returns (n: nat)
    ensures forall m :: m in used ==> m < n
    decreases |used|
  {
    if used == {} {
      n := 0;
    } else {
      var x :| x in used;
      n := UnusedNat(used - {x});
      assert forall m :: m in used ==> m == x || m in used - {x};
      n := if x < n then n else x + 1;
    }
  }

  lemma {:induction false} UnusedName(used: set<string>) returns (name: string)
    ensures forall x :: x in used ==> |x| < |name|
    decreases |used|
  {
    if used == {} {
      name := "";
    } else {
      var x :| x in used;
      name := UnusedName(used - {x});
      assert forall y :: y in used ==> y == x || y in used - {x};
      name := if |x| < |name| then name else x + "x";
    }
  }

  ghost predicate Leaves(s: State, run: seq<Action>, org: string, user: string) {
    Goes(s, run, org, user) && !Holds(Exec(s, run), org, user)
  }

  lemma ByDeletion(s: State, pid: nat, org: string, user: string) returns (run: seq<Action>)
    requires Inv(s) && pid in s.procs && s.procs[pid] == Authed(DeleteReq(org))
    ensures Leaves(s, run, org, user)
  {
    run := [DeleteOrg(pid, org)];
    GoesOneStep(s, DeleteOrg(pid, org), org, user);
  }

  lemma ByRemoval(s: State, pid: nat, org: string, user: string) returns (run: seq<Action>)
    requires Inv(s) && pid in s.procs && s.procs[pid] == MayRemove(org, user)
    ensures Leaves(s, run, org, user)
  {
    run := [WriteRemove(pid)];
    GoesOneStep(s, WriteRemove(pid), org, user);
  }

  lemma ByRemoveReq(s: State, pid: nat, org: string, user: string) returns (run: seq<Action>)
    requires Inv(s) && IsActive(s.t, org, user) && !IsOwner(s.t, org, user)
    requires pid in s.procs && s.procs[pid] == Authed(RemoveReq(org, user))
    ensures Leaves(s, run, org, user)
  {
    var a := CheckRemove(pid);
    GoesOneStep(s, a, org, user);
    var rest := ByRemoval(Step(s, a), pid, org, user);
    GoesOn(s, [a], rest, org, user);
    run := [a] + rest;
  }

  lemma ByAdmin(s: State, admin: string, org: string, user: string) returns (run: seq<Action>)
    requires Inv(s) && IsActive(s.t, org, user) && !IsOwner(s.t, org, user) && Authorised(s.t, org, admin, Admin)
    ensures Leaves(s, run, org, user)
  {
    var pid := UnusedNat(s.procs.Keys);
    var a := Authorise(pid, admin, RemoveReq(org, user));
    GoesOneStep(s, a, org, user);
    var rest := ByRemoveReq(Step(s, a), pid, org, user);
    GoesOn(s, [a], rest, org, user);
    run := [a] + rest;
  }

  lemma ByOwner(s: State, org: string, user: string) returns (run: seq<Action>)
    requires Inv(s) && IsOwner(s.t, org, user)
    ensures Leaves(s, run, org, user)
  {
    var pid := UnusedNat(s.procs.Keys);
    var a := Authorise(pid, user, DeleteReq(org));
    GoesOneStep(s, a, org, user);
    var rest := ByDeletion(Step(s, a), pid, org, user);
    GoesOn(s, [a], rest, org, user);
    run := [a] + rest;
  }

  // ---- Bringing a member in ----

  /** A run that ends with the user as a member in this role. */
  ghost predicate Brings(s: State, run: seq<Action>, org: string, user: string, v: string, role: Role) {
    && Goes(s, run, org, user) && Waits(s, Exec(s, run))
    && (org, v) in Exec(s, run).t.members && Exec(s, run).t.members[(org, v)] == Member(role, true)
    && (v != user ==> SameRow(s, Exec(s, run), org, user)) && Exec(s, run).t.deleted == s.t.deleted
  }

  /** One statement first. */
  lemma BringsOn(s: State, a: Action, rest: seq<Action>, org: string, user: string, v: string, role: Role)
    requires Inv(s) && Enabled(s, a) && Within(s, a, org) && Brings(Step(s, a), rest, org, user, v, role)
    requires Waits(s, Step(s, a)) && SameRow(s, Step(s, a), org, user) && Step(s, a).t.deleted == s.t.deleted
    ensures Brings(s, [a] + rest, org, user, v, role)
  {
    GoesOneStep(s, a, org, user);
    GoesOn(s, [a], rest, org, user);
  }

  lemma BringAdmitting(s: State, pid: nat, token: string, org: string, role: Role, v: string, user: string)
    returns (run: seq<Action>)
    requires Inv(s) && pid in s.procs && s.procs[pid] == Admitting(token, org, role, v)
    ensures Brings(s, run, org, user, v, role)
  {
    run := [AddInvited(pid)];
    GoesOneStep(s, AddInvited(pid), org, user);
  }

  lemma BringOutsider(s: State, pid: nat, token: string, org: string, role: Role, v: string, user: string)
    returns (run: seq<Action>)
    requires Inv(s) && pid in s.procs && s.procs[pid] == Outsider(token, org, role, v) && Open(s.t, token)
    ensures Brings(s, run, org, user, v, role)
  {
    var a := MarkAccepted(pid);
    GoesOneStep(s, a, org, user);
    var rest := BringAdmitting(Step(s, a), pid, token, org, role, v, user);
    BringsOn(s, a, rest, org, user, v, role);
    run := [a] + rest;
  }

  lemma BringFetched(s: State, pid: nat, token: string, org: string, role: Role, v: string, user: string)
    returns (run: seq<Action>)
    requires Inv(s) && pid in s.procs && s.procs[pid] == Fetched(token, org, role, v) && Open(s.t, token)
    requires !IsActive(s.t, org, v)
    ensures Brings(s, run, org, user, v, role)
  {
    var a := CheckOutsider(pid);
    GoesOneStep(s, a, org, user);
    var rest := BringOutsider(Step(s, a), pid, token, org, role, v, user);
    BringsOn(s, a, rest, org, user, v, role);
    run := [a] + rest;
  }

  lemma BringInvited(s: State, token: string, org: string, v: string, user: string) returns (run: seq<Action>)
    requires Inv(s) && Acceptable(s.t, token, org) && !IsActive(s.t, org, v)
    ensures Brings(s, run, org, user, v, s.t.invites[token].role)
  {
    var pid := UnusedNat(s.procs.Keys);
    var a := FetchInvite(pid, token, v);
    var role := s.t.invites[token].role;
    GoesOneStep(s, a, org, user);
    var rest := BringFetched(Step(s, a), pid, token, org, role, v, user);
    BringsOn(s, a, rest, org, user, v, role);
    run := [a] + rest;
  }

  lemma BringUninvited(s: State, pid: nat, org: string, v: string, user: string) returns (run: seq<Action>)
    requires Inv(s) && pid in s.procs && IsInviteReq(s.procs[pid], org) && !IsActive(s.t, org, v)
    ensures Brings(s, run, org, user, v, s.procs[pid].req.role)
  {
    var token := UnusedName(s.t.invites.Keys);
    var a := MakeInvite(pid, token);
    GoesOneStep(s, a, org, user);
    var rest := BringInvited(Step(s, a), token, org, v, user);
    BringsOn(s, a, rest, org, user, v, s.procs[pid].req.role);
    run := [a] + rest;
  }

  /** Whoever can join is brought in, as no owner, without disturbing the requests that wait for it. */
  lemma BringJoiner(s: State, org: string, v: string, user: string) returns (run: seq<Action>, role: Role)
    requires Inv(s) && CanJoin(s, org, v) && !IsActive(s.t, org, v)
    ensures Brings(s, run, org, user, v, role) && !role.Owner?
  {
    if token :| token in s.t.invites && Acceptable(s.t, token, org) {
      run := BringInvited(s, token, org, v, user);
      role := s.t.invites[token].role;
    } else if pid :| pid in s.procs && IsInviteReq(s.procs[pid], org) {
      run := BringUninvited(s, pid, org, v, user);
      role := s.procs[pid].req.role;
    } else {
      var pid :| pid in s.procs && Admits(s.t, s.procs[pid], org, v);
      var p := s.procs[pid];
      assert PhaseOk(s, p);
      role := p.role;
      match p
      case Fetched(token, _, _, _) => run := BringFetched(s, pid, token, org, role, v, user);
      case Outsider(token, _, _, _) => run := BringOutsider(s, pid, token, org, role, v, user);
      case Admitting(token, _, _, _) => run := BringAdmitting(s, pid, token, org, role, v, user);
    }
  }

  // ---- Leaving ----

  /** A run that brings in an admin is followed by one that removes the user. */
  lemma ByNewAdmin(s: State, first: seq<Action>, v: string, org: string, user: string) returns (run: seq<Action>)
    requires Inv(s) && IsActive(s.t, org, user) && !IsOwner(s.t, org, user) && Brings(s, first, org, user, v, Admin)
    ensures Leaves(s, run, org, user)
  {
    var s1 := Exec(s, first);
    var rest := ByAdmin(s1, v, org, user);
    GoesOn(s, first, rest, org, user);
    run := first + rest;
  }

  lemma ByUpdateOf(s: State, pid: nat, v: string, org: string, user: string) returns (run: seq<Action>)
    requires Inv(s) && IsActive(s.t, org, user) && !IsOwner(s.t, org, user) && IsActive(s.t, org, v)
    requires pid in s.procs && s.procs[pid] == MayUpdate(org, v, Admin)
    ensures Leaves(s, run, org, user)
  {
    var a := WriteRole(pid);
    GoesOneStep(s, a, org, user);
    var rest := ByAdmin(Step(s, a), v, org, user);
    GoesOn(s, [a], rest, org, user);
    run := [a] + rest;
  }

  lemma ByUpdateReqOf(s: State, pid: nat, v: string, org: string, user: string) returns (run: seq<Action>)
    requires Inv(s) && IsActive(s.t, org, user) && !IsOwner(s.t, org, user) && IsActive(s.t, org, v)
    requires pid in s.procs && s.procs[pid] == Authed(UpdateReq(org, v, Admin))
    ensures Leaves(s, run, org, user)
  {
    if IsOwner(s.t, org, v) {
      run := ByAdmin(s, v, org, user);
    } else {
      var a := CheckUpdate(pid);
      GoesOneStep(s, a, org, user);
      var rest := ByUpdateOf(Step(s, a), pid, v, org, user);
      GoesOn(s, [a], rest, org, user);
      run := [a] + rest;
    }
  }

  lemma ByUpdate(s: State, pid: nat, v: string, org: string, user: string) returns (run: seq<Action>)
    requires Inv(s) && IsActive(s.t, org, user) && !IsOwner(s.t, org, user) && CanJoin(s, org, v) && pid in s.procs
    requires s.procs[pid] == MayUpdate(org, v, Admin) || s.procs[pid] == Authed(UpdateReq(org, v, Admin))
    ensures Leaves(s, run, org, user)
  {
    var first: seq<Action> := [];
    var s1 := s;
    if !IsActive(s.t, org, v) {
      var role;
      first, role := BringJoiner(s, org, v, user);
      s1 := Exec(s, first);
    }
    var rest;
    if s.procs[pid].MayUpdate? {
      rest := ByUpdateOf(s1, pid, v, org, user);
    } else {
      rest := ByUpdateReqOf(s1, pid, v, org, user);
    }
    GoesOn(s, first, rest, org, user);
    run := first + rest;
  }

  /** A user who belongs to nothing. */
  lemma UnusedUser(s: State) returns (v: string)
    ensures forall o :: (o, v) !in s.t.members
  {
    var names := set k | k in s.t.members :: k.1;
    assert forall k :: k in s.t.members ==> k.1 in names;
    v := UnusedName(names);
    assert forall k :: k in s.t.members ==> k.1 != v;
  }

  lemma ByRequest(s: State, pid: nat, org: string, user: string) returns (run: seq<Action>)
    requires Inv(s) && IsActive(s.t, org, user) && !IsOwner(s.t, org, user)
    requires pid in s.procs && Elevates(s, s.procs[pid], org, user)
    ensures Leaves(s, run, org, user)
  {
    match s.procs[pid]
    case Authed(RemoveReq(_, _)) => run := ByRemoveReq(s, pid, org, user);
    case Authed(DeleteReq(_)) => run := ByDeletion(s, pid, org, user);
    case Authed(InviteReq(_, _)) =>
      var v := UnusedUser(s);
      var first := BringUninvited(s, pid, org, v, user);
      run := ByNewAdmin(s, first, v, org, user);
    case Authed(UpdateReq(_, v, _)) => run := ByUpdate(s, pid, v, org, user);
    case MayRemove(_, _) => run := ByRemoval(s, pid, org, user);
    case MayUpdate(_, v, _) => run := ByUpdate(s, pid, v, org, user);
    case Outsider(token, _, _, v) =>
      var first := BringOutsider(s, pid, token, org, Admin, v, user);
      run := ByNewAdmin(s, first, v, org, user);
    case Admitting(token, _, _, v) =>
      var first := BringAdmitting(s, pid, token, org, Admin, v, user);
      run := ByNewAdmin(s, first, v, org, user);
  }

  lemma LeaveEarly(s: State, org: string, user: string) returns (run: seq<Action>)
    requires Inv(s) && IsActive(s.t, org, user) && LeftEarly(s, org, user)
    ensures Leaves(s, run, org, user)
  {
    if IsOwner(s.t, org, user) {
      run := ByOwner(s, org, user);
    } else if k :| k in s.t.members && k.0 == org && Authorised(s.t, org, k.1, Admin) {
      run := ByAdmin(s, k.1, org, user);
    } else if token :| token in s.t.invites && Acceptable(s.t, token, org) && s.t.invites[token].role.Admin? {
      var v := UnusedUser(s);
      var first := BringInvited(s, token, org, v, user);
      run := ByNewAdmin(s, first, v, org, user);
    } else {
      var pid :| pid in s.procs && Elevates(s, s.procs[pid], org, user);
      run := ByRequest(s, pid, org, user);
    }
  }

  lemma AccountGone(s: State, v: string, org: string, user: string)
    requires Inv(s) && v != user
    ensures var s' := Exec(s, [DeleteUser(v)]);
      && Inv(s') && Beside(s, s', org, user) && SameRow(s, s', org, user) && !IsActive(s'.t, org, v)
      && s'.t.invites == s.t.invites && s'.procs == s.procs
  {
    OneStep(s, DeleteUser(v));
    ApplyKeepsInv(s, DeleteUser(v));
  }

  lemma ByFetched(s: State, pid: nat, token: string, v: string, org: string, user: string) returns (run: seq<Action>)
    requires Inv(s) && IsActive(s.t, org, user) && !IsOwner(s.t, org, user) && !IsActive(s.t, org, v)
    requires pid in s.procs && s.procs[pid] == Fetched(token, org, Admin, v) && Open(s.t, token)
    ensures Leaves(s, run, org, user)
  {
    var first := BringFetched(s, pid, token, org, Admin, v, user);
    run := ByNewAdmin(s, first, v, org, user);
  }

  lemma BesideTrans(s: State, s1: State, s2: State, org: string, user: string)
    requires Beside(s, s1, org, user) && Beside(s1, s2, org, user)
    ensures Beside(s, s2, org, user)
  {
    forall o | o != org ensures SameRow(s, s2, o, user) {
      assert SameRow(s, s1, o, user) && SameRow(s1, s2, o, user);
    }
  }

  lemma AfterAccountGone(s: State, v: string, rest: seq<Action>, org: string, user: string)
    requires Inv(s) && v != user && Leaves(Exec(s, [DeleteUser(v)]), rest, org, user)
    ensures var run := [DeleteUser(v)] + rest;
      && Polite(run, org, user) && Beside(s, Exec(s, run), org, user)
      && Inv(Exec(s, run)) && !Holds(Exec(s, run), org, user)
  {
    var s1 := Exec(s, [DeleteUser(v)]);
    AccountGone(s, v, org, user);
    ExecSplit(s, [DeleteUser(v)], rest);
    BesideTrans(s, s1, Exec(s1, rest), org, user);
  }

  /** The last way: with the other user's account gone, the invite it has fetched brings it back in as admin. */
  lemma LeaveLate(s: State, org: string, user: string) returns (run: seq<Action>)
    requires Inv(s) && IsActive(s.t, org, user) && !IsOwner(s.t, org, user) && LeftLate(s, org, user)
    ensures Polite(run, org, user) && Beside(s, Exec(s, run), org, user)
    ensures Inv(Exec(s, run)) && !Holds(Exec(s, run), org, user)
  {
    var pid :| pid in s.procs && ElevatesLate(s.t, s.procs[pid], org, user);
    var p := s.procs[pid];
    AccountGone(s, p.user, org, user);
    var rest := ByFetched(Exec(s, [DeleteUser(p.user)]), pid, p.token, p.user, org, user);
    AfterAccountGone(s, p.user, rest, org, user);
    run := [DeleteUser(p.user)] + rest;
  }

  // ---- What else can be left stays so ----

  lemma AdmitsStays(s: State, s': State, pid: nat, org: string, o: string, v: string, user: string)
    requires Inv(s) && Beside(s, s', org, user) && o != org && pid in s.procs && Admits(s.t, s.procs[pid], o, v)
    ensures pid in s'.procs && Admits(s'.t, s'.procs[pid], o, v)
  {
    assert PhaseOk(s, s.procs[pid]);
  }

  lemma CanJoinStays(s: State, s': State, org: string, o: string, v: string, user: string)
    requires Inv(s) && Elsewhere(s, s', org, user) && o != org && CanJoin(s, o, v)
    ensures CanJoin(s', o, v)
  {
    assert SameRow(s, s', o, v);
    if IsActive(s.t, o, v) {
    } else if token :| token in s.t.invites && Acceptable(s.t, token, o) {
      assert Acceptable(s'.t, token, o);
    } else if pid :| pid in s.procs && IsInviteReq(s.procs[pid], o) {
      assert pid in s'.procs && IsInviteReq(s'.procs[pid], o);
    } else {
      var pid :| pid in s.procs && Admits(s.t, s.procs[pid], o, v);
      AdmitsStays(s, s', pid, org, o, v, user);
    }
  }

  lemma ElevatesStays(s: State, s': State, pid: nat, org: string, o: string, user: string)
    requires Inv(s) && Elsewhere(s, s', org, user) && o != org && pid in s.procs && Elevates(s, s.procs[pid], o, user)
    ensures pid in s'.procs && Elevates(s', s'.procs[pid], o, user)
  {
    var p := s.procs[pid];
    assert PhaseOk(s, p);
    if p.MayUpdate? {
      CanJoinStays(s, s', org, o, p.user, user);
    } else if p.Authed? && p.req.UpdateReq? {
      CanJoinStays(s, s', org, o, p.req.target, user);
    }
  }

  lemma LeftEarlyStays(s: State, s': State, org: string, o: string, user: string)
    requires Inv(s) && Elsewhere(s, s', org, user) && o != org && LeftEarly(s, o, user)
    ensures LeftEarly(s', o, user)
  {
    if k :| k in s.t.members && k.0 == o && Authorised(s.t, o, k.1, Admin) {
      assert SameRow(s, s', o, k.1) && k == (o, k.1);
      assert k in s'.t.members;
    } else if token :| token in s.t.invites && Acceptable(s.t, token, o) && s.t.invites[token].role.Admin? {
      assert Acceptable(s'.t, token, o);
    } else {
      var pid :| pid in s.procs && Elevates(s, s.procs[pid], o, user);
      ElevatesStays(s, s', pid, org, o, user);
    }
  }

  lemma LeftLateStays(s: State, s': State, org: string, o: string, user: string)
    requires Inv(s) && Beside(s, s', org, user) && o != org && LeftLate(s, o, user)
    ensures LeftLate(s', o, user)
  {
    var pid :| pid in s.procs && ElevatesLate(s.t, s.procs[pid], o, user);
    assert PhaseOk(s, s.procs[pid]);
    assert pid in s'.procs && ElevatesLate(s'.t, s'.procs[pid], o, user);
  }

  lemma HeldBefore(s: State, s': State, org: string, o: string, user: string)
    requires Beside(s, s', org, user) && !Holds(s', org, user) && Holds(s', o, user)
    ensures o != org && Holds(s, o, user)
  {
    assert o != org;
    assert SameRow(s, s', o, user);
  }

  lemma OwnerLeavesEarly(s: State, org: string, user: string)
    ensures IsOwner(s.t, org, user) ==> LeftEarly(s, org, user)
  {
    if IsOwner(s.t, org, user) { assert (org, user) in s.t.members; }
  }

  lemma MemberHolds(s: State, user: string)
    ensures BelongsSomewhere(s.t, user) ==> exists o :: Holds(s, o, user)
  {
    if k :| k in s.t.members && k.1 == user && s.t.members[k].active && k.0 !in s.t.deleted {
      assert k == (k.0, user) && Holds(s, k.0, user);
    }
  }

  /** One organisation is left, those first that need no account deleted. */
  lemma LeaveOne(s: State, user: string) returns (run: seq<Action>, org: string)
    requires Inv(s) && (forall o :: Holds(s, o, user) ==> CanBeLeft(s, o, user)) && exists o :: Holds(s, o, user)
    ensures Polite(run, org, user) && Beside(s, Exec(s, run), org, user) && Inv(Exec(s, run))
    ensures Holds(s, org, user) && !Holds(Exec(s, run), org, user)
    ensures forall o :: Holds(Exec(s, run), o, user) ==> CanBeLeft(Exec(s, run), o, user)
  {
    if o :| Holds(s, o, user) && LeftEarly(s, o, user) {
      org := o;
      run := LeaveEarly(s, org, user);
      var s' := Exec(s, run);
      forall o | Holds(s', o, user) ensures CanBeLeft(s', o, user) {
        HeldBefore(s, s', org, o, user);
        if LeftEarly(s, o, user) { LeftEarlyStays(s, s', org, o, user); } else { LeftLateStays(s, s', org, o, user); }
      }
    } else {
      org :| Holds(s, org, user);
      OwnerLeavesEarly(s, org, user);
      run := LeaveLate(s, org, user);
      var s' := Exec(s, run);
      forall o | Holds(s', o, user) ensures CanBeLeft(s', o, user) {
        HeldBefore(s, s', org, o, user);
        LeftLateStays(s, s', org, o, user);
      }
    }
  }

  function HeldBy(s: State, user: string): set<string> {
    set k | k in s.t.members && k.1 == user && s.t.members[k].active && k.0 !in s.t.deleted :: k.0
  }

  lemma FewerHeld(s: State, s': State, org: string, user: string)
    requires Beside(s, s', org, user) && Holds(s, org, user) && !Holds(s', org, user)
    ensures HeldBy(s', user) < HeldBy(s, user)
  {
    forall o | o in HeldBy(s', user) ensures o in HeldBy(s, user) {
      var k :| k in s'.t.members && k.1 == user && s'.t.members[k].active && k.0 !in s'.t.deleted && k.0 == o;
      assert k == (o, user);
      HeldBefore(s, s', org, o, user);
      assert k in s.t.members;
    }
    assert (org, user) in s.t.members;
    assert org in HeldBy(s, user) && org !in HeldBy(s', user);
  }

  /** A user whose every organisation can be left ends up in none. */
  lemma {:induction false} LeftEverywhere(s: State, user: string) returns (run: seq<Action>)
    requires Inv(s) && forall o :: Holds(s, o, user) ==> CanBeLeft(s, o, user)
    ensures !BelongsSomewhere(Exec(s, run).t, user) && Exec(s, run).t.orgs == s.t.orgs
    ensures DeleteUser(user) !in run && forall a :: a in run && a.DeleteOrg? ==> Holds(s, a.org, user)
    decreases HeldBy(s, user)
  {
    if exists o :: Holds(s, o, user) {
      var first, org := LeaveOne(s, user);
      var s' := Exec(s, first);
      FewerHeld(s, s', org, user);
      var rest := LeftEverywhere(s', user);
      run := first + rest;
      ExecSplit(s, first, rest);
      forall a | a in run && a.DeleteOrg? ensures Holds(s, a.org, user) {
        if a in rest { HeldBefore(s, s', org, a.org, user); }
      }
    } else {
      run := [];
      MemberHolds(s, user);
    }
  }

  // ---- Creating ----

  lemma PassedCreates(s: State, user: string) returns (run: seq<Action>)
    requires HasPassed(s, user)
    ensures Creates(s, run, user) && forall a :: a in run ==> a.MakeOrg?
  {
    var pid :| pid in s.procs && s.procs[pid] == NotOnboarded(user);
    var org := UnusedName(s.t.orgs.Keys);
    run := [MakeOrg(pid, org)];
    OneStep(s, MakeOrg(pid, org));
    assert org !in s.t.orgs && org in Exec(s, run).t.orgs && Exec(s, run).t.orgs[org] == user;
  }

  lemma NobodyCreates(s: State, user: string) returns (run: seq<Action>)
    requires !BelongsSomewhere(s.t, user)
    ensures Creates(s, run, user) && forall a :: a in run ==> a.Onboard? || a.MakeOrg?
  {
    var pid := UnusedNat(s.procs.Keys);
    var a := Onboard(pid, user);
    var s1 := Apply(s, a);
    assert s1.t == s.t && pid in s1.procs && s1.procs[pid] == NotOnboarded(user);
    var rest := PassedCreates(s1, user);
    run := [a] + rest;
    OneStep(s, a);
    ExecSplit(s, [a], rest);
    var org :| org !in s1.t.orgs && org in Exec(s1, rest).t.orgs && Exec(s1, rest).t.orgs[org] == user;
    assert org !in s.t.orgs && org in Exec(s, run).t.orgs;
  }

  lemma LeaverCreates(s: State, user: string) returns (run: seq<Action>)
    requires Inv(s) && forall o :: Holds(s, o, user) ==> CanBeLeft(s, o, user)
    ensures Creates(s, run, user) && DeleteUser(user) !in run
    ensures forall a :: a in run && a.DeleteOrg? ==> Holds(s, a.org, user)
  {
    var first := LeftEverywhere(s, user);
    var s1 := Exec(s, first);
    var rest := NobodyCreates(s1, user);
    run := first + rest;
    ExecSplit(s, first, rest);
    var org :| org !in s1.t.orgs && org in Exec(s1, rest).t.orgs && Exec(s1, rest).t.orgs[org] == user;
    assert org !in s.t.orgs && org in Exec(s, run).t.orgs;
  }

  // ---- Main results ----

  /** From any reachable state, some run without a deletion of the account makes the user the creator of another
      organisation if and only if a request of the user has passed the check already, or every organisation that holds
      the user can be left. */
  lemma OnboardsAgainIff(before: seq<Action>, user: string)
    ensures var s := Exec(START, before);
      (exists run :: Creates(s, run, user) && DeleteUser(user) !in run)
        <==> (HasPassed(s, user) || forall org :: Holds(s, org, user) ==> CanBeLeft(s, org, user))
  {
    var s := Exec(START, before);
    ExecKeepsInv(START, before);
    if HasPassed(s, user) {
      var run := PassedCreates(s, user);
    } else if org :| Holds(s, org, user) && !CanBeLeft(s, org, user) {
      OwnerLeavesEarly(s, org, user);
      forall run | DeleteUser(user) !in run ensures !Creates(s, run, user) {
        StuckNeverCreates(s, run, org, user);
      }
    } else {
      var run := LeaverCreates(s, user);
    }
  }

  /** If the organisations the user owns are not deleted either, it must in addition own none that is not deleted. */
  lemma AnotherOrganisationIff(before: seq<Action>, user: string)
    ensures var s := Exec(START, before);
      (exists run :: Creates(s, run, user) && Undisturbed(s, run, user))
        <==> (HasPassed(s, user)
              || forall org :: Holds(s, org, user) ==> !IsOwner(s.t, org, user) && CanBeLeft(s, org, user))
  {
    var s := Exec(START, before);
    ExecKeepsInv(START, before);
    if HasPassed(s, user) {
      var run := PassedCreates(s, user);
    } else if org :| Stuck(s, org, user) {
      forall run | Undisturbed(s, run, user) ensures !Creates(s, run, user) {
        StuckNeverCreates(s, run, org, user);
      }
    } else {
      forall org | Holds(s, org, user) ensures !IsOwner(s.t, org, user) && CanBeLeft(s, org, user) {
        assert !Stuck(s, org, user);
      }
      var run := LeaverCreates(s, user);
    }
  }
}
