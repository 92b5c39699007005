/** Organisations, members and invites: the tables, their statements, and the handlers
    (internal/storage/cloud_store.go, internal/api/handlers/cloud_handlers.go) behind the check of the caller's role
    (internal/api/middleware/auth.go). */
module Membership {
  import opened Wrappers

  datatype Role = Owner | Admin | Developer | Viewer

  /** A row of org_members; inactive when deleted_at is set. */
  datatype Member = Member(role: Role, active: bool)

  datatype Invite = Invite(org: string, role: Role, acceptedBy: Option<string>, revoked: bool, expired: bool)

  /** `orgs` maps an organisation to its creator, `deleted` holds those with deleted_at set; members are keyed by
      organisation and user. */
  datatype Tables = Tables(
    orgs: map<string, string>, deleted: set<string>, members: map<(string, string), Member>, invites: map<string, Invite>)

  const EMPTY: Tables := Tables(map[], {}, map[], map[])

  datatype Reply = Done | Existing | BadRequest | Forbidden | NotFound | Conflict | Gone | Failed

  // ---- Statements ----

  predicate IsActive(t: Tables, org: string, user: string) {
    (org, user) in t.members && t.members[(org, user)].active
  }

  predicate IsOwner(t: Tables, org: string, user: string) {
    IsActive(t, org, user) && t.members[(org, user)].role.Owner?
  }

  /** GetOrganizationsForUser finds something: an active membership of an organisation that is not deleted. */
  predicate BelongsSomewhere(t: Tables, user: string) {
    exists k :: k in t.members && k.1 == user && t.members[k].active && k.0 !in t.deleted
  }

  function Level(r: Role): nat {
    match r
    case Owner => 4
    case Admin => 3
    case Developer => 2
    case Viewer => 1
  }

  /** OrgAuthz: the caller is an active member of at least this role. Whether the organisation is deleted does not
      matter to it. */
  predicate Authorised(t: Tables, org: string, caller: string, least: Role) {
    IsActive(t, org, caller) && Level(t.members[(org, caller)].role) >= Level(least)
  }

  function OwnersOf(t: Tables, org: string): set<(string, string)> {
    set k | k in t.members && k.0 == org && t.members[k].active && t.members[k].role.Owner?
  }

  function OrgDeleted(t: Tables, org: string): Tables {
    t.(deleted := t.deleted + {org})
  }

  function OrgAdded(t: Tables, org: string, creator: string): Tables {
    t.(orgs := t.orgs[org := creator])
  }

  /** INSERT ... ON CONFLICT DO UPDATE SET deleted_at = NULL, role = EXCLUDED.role. */
  function MemberAdded(t: Tables, org: string, user: string, role: Role): Tables {
    t.(members := t.members[(org, user) := Member(role, true)])
  }

  function RoleSet(t: Tables, org: string, user: string, role: Role): Tables {
    if IsActive(t, org, user) then t.(members := t.members[(org, user) := Member(role, true)]) else t
  }

  function MemberRemoved(t: Tables, org: string, user: string): Tables {
    if IsActive(t, org, user) then t.(members := t.members[(org, user) := t.members[(org, user)].(active := false)]) else t
  }

  function UserRemoved(t: Tables, user: string): Tables {
    t.(members := map k | k in t.members :: if k.1 == user then t.members[k].(active := false) else t.members[k])
  }

  function InviteAdded(t: Tables, org: string, token: string, role: Role): Tables {
    t.(invites := t.invites[token := Invite(org, role, None, false, false)])
  }

  /** Neither revoked nor accepted. */
  predicate Open(t: Tables, token: string) {
    token in t.invites && !t.invites[token].revoked && t.invites[token].acceptedBy.None?
  }

  function InviteExpired(t: Tables, token: string): Tables {
    if token in t.invites then t.(invites := t.invites[token := t.invites[token].(expired := true)]) else t
  }

  /** UPDATE ... WHERE deleted_at IS NULL AND accepted_at IS NULL. */
  function InviteAccepted(t: Tables, token: string, user: string): Tables {
    if Open(t, token) then t.(invites := t.invites[token := t.invites[token].(acceptedBy := Some(user))]) else t
  }

  function InviteRevoked(t: Tables, org: string, token: string): Tables {
    if token in t.invites && t.invites[token].org == org && !t.invites[token].revoked then
      t.(invites := t.invites[token := t.invites[token].(revoked := true)])
    else t
  }

  // ---- Handlers behind their role check, uninterrupted ----

  function Onboarded(t: Tables, user: string, org: string): (Tables, Reply) {
    if BelongsSomewhere(t, user) then (t, Existing)
    else (MemberAdded(OrgAdded(t, org, user), org, user, Owner), Done)
  }

  function Deleted(t: Tables, org: string, caller: string): (Tables, Reply) {
    if !Authorised(t, org, caller, Owner) then (t, Forbidden)
    else if org in t.deleted then (t, Failed)
    else (OrgDeleted(t, org), Done)
  }

  function Updated(t: Tables, org: string, caller: string, target: string, role: Role): (Tables, Reply) {
    if !Authorised(t, org, caller, Admin) then (t, Forbidden)
    else if role.Owner? then (t, BadRequest)
    else if !IsActive(t, org, target) then (t, NotFound)
    else if t.members[(org, target)].role.Owner? then (t, Forbidden)
    else (RoleSet(t, org, target, role), Done)
  }

  function Removed(t: Tables, org: string, caller: string, target: string): (Tables, Reply) {
    if !Authorised(t, org, caller, Admin) then (t, Forbidden)
    else if !IsActive(t, org, target) then (t, NotFound)
    else if t.members[(org, target)].role.Owner? && |OwnersOf(t, org)| <= 1 then (t, Forbidden)
    else (MemberRemoved(t, org, target), Done)
  }

  function Invited(t: Tables, org: string, caller: string, token: string, role: Role): (Tables, Reply) {
    if !Authorised(t, org, caller, Admin) then (t, Forbidden)
    else if role.Owner? then (t, BadRequest)
    else (InviteAdded(t, org, token, role), Done)
  }

  function Revoked(t: Tables, org: string, caller: string, token: string): (Tables, Reply) {
    if !Authorised(t, org, caller, Admin) then (t, Forbidden)
    else if token !in t.invites || t.invites[token].org != org || t.invites[token].revoked then (t, NotFound)
    else (InviteRevoked(t, org, token), Done)
  }

  function Accepted(t: Tables, token: string, user: string): (Tables, Reply) {
    if token !in t.invites || t.invites[token].revoked then (t, NotFound)
    else if t.invites[token].acceptedBy.Some? then (t, Conflict)
    else if t.invites[token].expired then (t, Gone)
    else if IsActive(t, t.invites[token].org, user) then (t, Conflict)
    else (MemberAdded(InviteAccepted(t, token, user), t.invites[token].org, user, t.invites[token].role), Done)
  }

  // ---- What each handler does, and when ----

  /** An active owner or admin. */
  predicate Manages(t: Tables, org: string, user: string) {
    IsActive(t, org, user) && (t.members[(org, user)].role == Owner || t.members[(org, user)].role == Admin)
  }

  predicate OnlyMember(t: Tables, t': Tables, org: string, user: string, m: Member) {
    t'.members == t.members[(org, user) := m]
  }

  lemma OnboardedIff(t: Tables, user: string, org: string)
    requires org !in t.orgs
    ensures var (t', r) := Onboarded(t, user, org);
      && (r == Existing <==> exists k :: k in t.members && k.1 == user && t.members[k].active && k.0 !in t.deleted)
      && (if r == Existing then t' == t
          else r == Done && t'.orgs == t.orgs[org := user] && OnlyMember(t, t', org, user, Member(Owner, true))
               && t'.deleted == t.deleted && t'.invites == t.invites)
  {
  }

  lemma DeletedIff(t: Tables, org: string, caller: string)
    ensures var (t', r) := Deleted(t, org, caller);
      && (r == Forbidden <==> !IsOwner(t, org, caller))
      && (r == Done <==> IsOwner(t, org, caller) && org !in t.deleted)
      && t'.orgs == t.orgs && t'.members == t.members && t'.invites == t.invites
      && t'.deleted == if r == Done then t.deleted + {org} else t.deleted
  {
  }

  lemma UpdatedIff(t: Tables, org: string, caller: string, target: string, role: Role)
    ensures var (t', r) := Updated(t, org, caller, target, role);
      && (r == Done <==> Manages(t, org, caller) && role != Owner && IsActive(t, org, target) && t.members[(org, target)].role != Owner)
      && (r == BadRequest <==> Manages(t, org, caller) && role == Owner)
      && (r == NotFound <==> Manages(t, org, caller) && role != Owner && !IsActive(t, org, target))
      && (if r == Done then OnlyMember(t, t', org, target, Member(role, true)) else t'.members == t.members)
      && t'.orgs == t.orgs && t'.deleted == t.deleted && t'.invites == t.invites
  {
  }

  lemma RemovedIff(t: Tables, org: string, caller: string, target: string)
    ensures var (t', r) := Removed(t, org, caller, target);
      && (r == Done <==> Manages(t, org, caller) && IsActive(t, org, target)
                         && (t.members[(org, target)].role == Owner ==> |OwnersOf(t, org)| > 1))
      && (r == NotFound <==> Manages(t, org, caller) && !IsActive(t, org, target))
      && (if r == Done then OnlyMember(t, t', org, target, Member(t.members[(org, target)].role, false)) else t'.members == t.members)
      && t'.orgs == t.orgs && t'.deleted == t.deleted && t'.invites == t.invites
  {
  }

  lemma InvitedIff(t: Tables, org: string, caller: string, token: string, role: Role)
    ensures var (t', r) := Invited(t, org, caller, token, role);
      && (r == Done <==> Manages(t, org, caller) && role != Owner)
      && (r == BadRequest <==> Manages(t, org, caller) && role == Owner)
      && t' == if r == Done then t.(invites := t.invites[token := Invite(org, role, None, false, false)]) else t
  {
  }

  lemma RevokedIff(t: Tables, org: string, caller: string, token: string)
    ensures var (t', r) := Revoked(t, org, caller, token);
      && (r == Done <==> Manages(t, org, caller) && token in t.invites && t.invites[token].org == org && !t.invites[token].revoked)
      && (r == Forbidden <==> !Manages(t, org, caller))
      && t' == if r == Done then t.(invites := t.invites[token := t.invites[token].(revoked := true)]) else t
  {
  }

  /** Anybody may accept an open invite, once, before it expires, who is not a member; it makes a member of the invite's
      role. */
  lemma AcceptedIff(t: Tables, token: string, user: string)
    ensures var (t', r) := Accepted(t, token, user);
      && (r == Done <==> token in t.invites && !t.invites[token].revoked && t.invites[token].acceptedBy == None
                         && !t.invites[token].expired && !IsActive(t, t.invites[token].org, user))
      && (r == NotFound <==> token !in t.invites || t.invites[token].revoked)
      && (r == Gone <==> token in t.invites && !t.invites[token].revoked && t.invites[token].acceptedBy == None
                         && t.invites[token].expired)
      && (if r == Done then
            OnlyMember(t, t', t.invites[token].org, user, Member(t.invites[token].role, true))
            && t'.invites == t.invites[token := t.invites[token].(acceptedBy := Some(user))]
            && t'.orgs == t.orgs && t'.deleted == t.deleted
          else t' == t)
  {
  }

  class CloudHandler {
    var orgs: map<string, string>
    var deleted: set<string>
    var members: map<(string, string), Member>
    var invites: map<string, Invite>

    ghost function State(): Tables reads this {
      Tables(orgs, deleted, members, invites)
    }

    constructor ()
      ensures State() == EMPTY
    {
      orgs, deleted, members, invites := map[], {}, map[], map[];
    }

    method AddOrgMember(org: string, user: string, role: Role)
      modifies `members
      ensures State() == MemberAdded(old(State()), org, user, role)
    {
      members := members[(org, user) := Member(role, true)];
    }

    method GetOrgMember(org: string, user: string) returns (m: Option<Member>)
      ensures m == if IsActive(State(), org, user) then Some(members[(org, user)]) else None
    {
      m := if (org, user) in members && members[(org, user)].active then Some(members[(org, user)]) else None;
    }

    method CountActiveOwners(org: string) returns (count: nat)
      ensures count == |OwnersOf(State(), org)|
    {
      count := |set k | k in members && k.0 == org && members[k].active && members[k].role.Owner?|;
    }

    method UpdateOrgMemberRole(org: string, user: string, role: Role) returns (found: bool)
      modifies `members
      ensures State() == RoleSet(old(State()), org, user, role) && found == IsActive(old(State()), org, user)
    {
      found := (org, user) in members && members[(org, user)].active;
      if found {
        members := members[(org, user) := members[(org, user)].(role := role)];
      }
    }

    method RemoveOrgMember(org: string, user: string) returns (found: bool)
      modifies `members
      ensures State() == MemberRemoved(old(State()), org, user) && found == IsActive(old(State()), org, user)
    {
      found := (org, user) in members && members[(org, user)].active;
      if found {
        members := members[(org, user) := members[(org, user)].(active := false)];
      }
    }

    method DeleteClerkUser(user: string)
      modifies `members
      ensures State() == UserRemoved(old(State()), user)
    {
      members := map k | k in members :: if k.1 == user then members[k].(active := false) else members[k];
    }

    method Onboarding(user: string, freshOrg: string) returns (r: Reply)
      requires freshOrg !in orgs
      modifies `orgs, `members
      ensures (State(), r) == Onboarded(old(State()), user, freshOrg)
    {
      if exists k :: k in members && k.1 == user && members[k].active && k.0 !in deleted {
        return Existing;
      }
      orgs := orgs[freshOrg := user];
      AddOrgMember(freshOrg, user, Owner);
      return Done;
    }

    method OrgAuthz(org: string, caller: string, least: Role) returns (ok: bool)
      ensures ok == Authorised(State(), org, caller, least)
    {
      var member := GetOrgMember(org, caller);
      ok := member.Some? && Level(member.value.role) >= Level(least);
    }

    method DeleteOrganization(org: string, caller: string) returns (r: Reply)
      modifies `deleted
      ensures (State(), r) == Deleted(old(State()), org, caller)
    {
      var ok := OrgAuthz(org, caller, Owner);
      if !ok {
        return Forbidden;
      }
      if org in deleted {
        return Failed;
      }
      deleted := deleted + {org};
      return Done;
    }

    method UpdateMember(org: string, caller: string, target: string, role: Role) returns (r: Reply)
      modifies `members
      ensures (State(), r) == Updated(old(State()), org, caller, target, role)
    {
      var ok := OrgAuthz(org, caller, Admin);
      if !ok {
        return Forbidden;
      }
      if role == Owner {
        return BadRequest;
      }
      var member := GetOrgMember(org, target);
      if member.None? {
        return NotFound;
      }
      if member.value.role == Owner {
        return Forbidden;
      }
      var updated := UpdateOrgMemberRole(org, target, role);
      return if updated then Done else Failed;
    }

    method RemoveMember(org: string, caller: string, target: string) returns (r: Reply)
      modifies `members
      ensures (State(), r) == Removed(old(State()), org, caller, target)
    {
      var ok := OrgAuthz(org, caller, Admin);
      if !ok {
        return Forbidden;
      }
      var member := GetOrgMember(org, target);
      if member.None? {
        return NotFound;
      }
      if member.value.role == Owner {
        var count := CountActiveOwners(org);
        if count <= 1 {
          return Forbidden;
        }
      }
      var removed := RemoveOrgMember(org, target);
      return if removed then Done else Failed;
    }

    method CreateInvite(org: string, caller: string, token: string, role: Role) returns (r: Reply)
      requires token !in invites
      modifies `invites
      ensures (State(), r) == Invited(old(State()), org, caller, token, role)
    {
      var ok := OrgAuthz(org, caller, Admin);
      if !ok {
        return Forbidden;
      }
      if role == Owner {
        return BadRequest;
      }
      invites := invites[token := Invite(org, role, None, false, false)];
      return Done;
    }

    method AcceptInvite(token: string, user: string) returns (r: Reply)
      modifies `members, `invites
      ensures (State(), r) == Accepted(old(State()), token, user)
    {
      if token !in invites || invites[token].revoked {
        return NotFound;
      }
      var inv := invites[token];
      if inv.acceptedBy.Some? {
        return Conflict;
      }
      if inv.expired {
        return Gone;
      }
      var existing := GetOrgMember(inv.org, user);
      if existing.Some? {
        return Conflict;
      }
      invites := invites[token := inv.(acceptedBy := Some(user))];
      AddOrgMember(inv.org, user, inv.role);
      return Done;
    }

    method RevokeInvite(org: string, caller: string, token: string) returns (r: Reply)
      modifies `invites
      ensures (State(), r) == Revoked(old(State()), org, caller, token)
    {
      var ok := OrgAuthz(org, caller, Admin);
      if !ok {
        return Forbidden;
      }
      if token !in invites || invites[token].org != org || invites[token].revoked {
        return NotFound;
      }
      invites := invites[token := invites[token].(revoked := true)];
      return Done;
    }
  }
}
