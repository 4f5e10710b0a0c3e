/** Who may do what: where memberships, roles and invitations come from, over every step and every run. */
module IdentityRights {
  import opened Wrappers
  import opened Plans
  import opened Identity
  import opened IdentityLaws

  predicate Has(d: Directory, org: OrgId, user: UserId, role: Role) {
    (org, user) in d.members && d.members[(org, user)] == role
  }

  predicate Addressed(d: Directory, user: UserId, i: Invitation) {
    user in d.users && Lower(d.users[user]) == Lower(i.email)
  }

  /** The event is an answer in time to invitation `i`, by the person it is addressed to. */
  predicate Answers(d: Directory, user: UserId, i: InvitationId) {
    && i in d.invitations && Addressed(d, user, d.invitations[i])
    && d.invitations[i].status == Pending && d.now <= d.invitations[i].expiresAt
  }

  // -- Memberships -------------------------------------------------------------

  /** The event makes `user` a member of `org`, and as what. */
  predicate Joins(d: Directory, e: Event, org: OrgId, user: UserId, role: Role) {
    match e
    case Create(o, owner, _, validName) =>
      o == org && owner == user && role == Owner && validName && org !in d.orgs && |OwnedBy(d, owner)| < 2
    case Accept(u, i) =>
      u == user && Answers(d, user, i) && d.invitations[i].org == org && d.invitations[i].role == role && (org, user) !in d.members
    case _ => false
  }

  /** The event changes a member's role: an owner does it, to somebody else who is no owner. */
  predicate Promotes(d: Directory, e: Event, org: OrgId, user: UserId, role: Role) {
    && e.ChangeRole? && e.org == org && e.target == user && e.role == role && e.actor != user
    && Has(d, org, e.actor, Owner) && (org, user) in d.members && !Has(d, org, user, Owner)
  }

  /** The event ends a membership: an owner ends anybody's but an owner's, an admin that of a mere member. */
  predicate Expels(d: Directory, e: Event, org: OrgId, user: UserId) {
    && e.Remove? && e.org == org && e.target == user
    && ((Has(d, org, e.actor, Owner) && (org, user) in d.members && !Has(d, org, user, Owner))
        || (Has(d, org, e.actor, Admin) && Has(d, org, user, Member)))
  }

  /** The organizations counted against a founder are those that the user owns, wherever the role came from. */
  lemma OwnedExactly(d: Directory, org: OrgId, user: UserId)
    ensures org in OwnedBy(d, user) <==> Has(d, org, user, Owner)
  {
    if Has(d, org, user, Owner) {
      var k := (org, user);
      assert k in d.members && k.1 == user && d.members[k] == Owner && k.0 == org;
    }
  }

  lemma JoinStep(d: Directory, e: Event, org: OrgId, user: UserId)
    requires Anchored(d) && (org, user) !in d.members
    ensures forall role :: Has(Step(d, e), org, user, role) <==> Joins(d, e, org, user, role)
  {
  }

  lemma RoleStep(d: Directory, e: Event, org: OrgId, user: UserId)
    requires (org, user) in d.members && e.ChangeRole?
    ensures forall role :: Has(Step(d, e), org, user, role) <==>
              if Promotes(d, e, org, user, e.role) then role == e.role else d.members[(org, user)] == role
  {
  }

  lemma RemoveStep(d: Directory, e: Event, org: OrgId, user: UserId)
    requires (org, user) in d.members && e.Remove?
    ensures forall role :: Has(Step(d, e), org, user, role) <==> !Expels(d, e, org, user) && d.members[(org, user)] == role
  {
  }

  lemma RestStep(d: Directory, e: Event, org: OrgId, user: UserId)
    requires Anchored(d) && (org, user) in d.members && !e.ChangeRole? && !e.Remove?
    ensures forall role :: Has(Step(d, e), org, user, role) <==> d.members[(org, user)] == role
  {
  }

  lemma MemberStep(d: Directory, e: Event, org: OrgId, user: UserId)
    requires Anchored(d) && (org, user) in d.members
    ensures forall role :: Has(Step(d, e), org, user, role) <==>
              !Expels(d, e, org, user)
              && (Promotes(d, e, org, user, role)
                  || (d.members[(org, user)] == role && !(e.ChangeRole? && Promotes(d, e, org, user, e.role))))
  {
    if e.ChangeRole? {
      RoleStep(d, e, org, user);
    } else if e.Remove? {
      RemoveStep(d, e, org, user);
    } else {
      RestStep(d, e, org, user);
    }
  }

  /**
   Every step: a member's role appears, changes or goes exactly by a creation or an acceptance, a
   promotion, or an expulsion, as those may be done.
   */
  lemma MembershipExactly(d: Directory, e: Event, org: OrgId, user: UserId, role: Role)
    requires Anchored(d)
    ensures Has(Step(d, e), org, user, role) <==>
              || Joins(d, e, org, user, role)
              || Promotes(d, e, org, user, role)
              || (Has(d, org, user, role) && !Expels(d, e, org, user) && !(e.ChangeRole? && Promotes(d, e, org, user, e.role)))
  {
    if (org, user) in d.members {
      MemberStep(d, e, org, user);
    } else {
      JoinStep(d, e, org, user);
    }
  }

  /** The event made `user` an owner: as the creator, or by the hand of somebody who was an owner just before. */
  predicate MakesOwner(d: Directory, e: Event, org: OrgId, user: UserId) {
    (e.Create? && e.org == org && e.owner == user) || Promotes(d, e, org, user, Owner)
  }

  ghost predicate EverMadeOwner(events: seq<Event>, org: OrgId, user: UserId) {
    events != [] &&
    var init := events[..|events| - 1];
    EverMadeOwner(init, org, user) || MakesOwner(Run(EMPTY, init), events[|events| - 1], org, user)
  }

  lemma {:induction false} EveryRunAnchored(events: seq<Event>)
    ensures Anchored(Run(EMPTY, events)) && NoOwnerInvited(Run(EMPTY, events))
  {
    if events != [] {
      EveryRunAnchored(events[..|events| - 1]);
      AnchoredStep(Run(EMPTY, events[..|events| - 1]), events[|events| - 1]);
      NoOwnerStep(Run(EMPTY, events[..|events| - 1]), events[|events| - 1]);
    }
  }

  /** Over every run an owner is the creator, or was made one by someone who was an owner then. */
  lemma {:induction false} OwnersComeFromOwners(events: seq<Event>, org: OrgId, user: UserId)
    requires Has(Run(EMPTY, events), org, user, Owner)
    ensures EverMadeOwner(events, org, user)
  {
    if events != [] {
      var init := events[..|events| - 1];
      EveryRunAnchored(init);
      MembershipExactly(Run(EMPTY, init), events[|events| - 1], org, user, Owner);
      if Has(Run(EMPTY, init), org, user, Owner) { OwnersComeFromOwners(init, org, user); }
    }
  }

  // -- Invitations ---------------------------------------------------------------

  /** An owner may invite as admin or member, an admin as member. */
  predicate MayOffer(d: Directory, actor: UserId, org: OrgId, role: Role) {
    (Has(d, org, actor, Owner) && role != Owner) || (Has(d, org, actor, Admin) && role == Member)
  }

  /** Nobody under the address belongs to the organization already or is being asked to, and there is a seat left. */
  predicate RoomFor(d: Directory, actor: UserId, org: OrgId, address: string) {
    && (actor in d.users ==> Lower(d.users[actor]) != Lower(address))
    && (forall u :: u in d.users && Lower(d.users[u]) == Lower(address) ==> (org, u) !in d.members)
    && (forall u, v :: u in d.users && v in d.users && u != v ==>
          !(Lower(d.users[u]) == Lower(address) && Lower(d.users[v]) == Lower(address)))
    && (forall i :: i in d.invitations && d.invitations[i].org == org && d.invitations[i].email == address ==>
          d.invitations[i].status != Pending || d.invitations[i].expiresAt <= d.now)
    && (SeatLimit(d, org).Some? ==> Seats(d, org) < SeatLimit(d, org).value)
  }

  lemma NoPending(d: Directory, org: OrgId, address: string)
    ensures InvitationPending(d, org, address) <==>
              exists i :: i in d.invitations && d.invitations[i].org == org && d.invitations[i].email == address
                          && d.invitations[i].status == Pending && d.invitations[i].expiresAt > d.now
  {
    if i :| i in d.invitations && d.invitations[i].org == org && d.invitations[i].email == address
            && d.invitations[i].status == Pending && d.invitations[i].expiresAt > d.now {
      assert i in OutstandingFor(d, org);
    }
  }

  /** An invitation is granted exactly if its actor may offer the role and there is room for the addressee. */
  lemma InvitationGranted(d: Directory, actor: UserId, org: OrgId, email: string, role: Role, id: InvitationId)
    requires id !in d.invitations
    ensures CreateInvitation(d, actor, org, email, role, id).Ok?
            <==> MayOffer(d, actor, org, role) && RoomFor(d, actor, org, Lower(Strip(email)))
  {
    var address := Lower(Strip(email));
    NoPending(d, org, address);
    Shared(d, address);
    Members(d, org, address);
  }

  lemma Shared(d: Directory, address: string)
    ensures !SharedEmail(d, address) <==>
              forall u, v :: u in d.users && v in d.users && u != v ==>
                !(Lower(d.users[u]) == Lower(address) && Lower(d.users[v]) == Lower(address))
  {
    if u, v :| u in d.users && v in d.users && u != v && Lower(d.users[u]) == Lower(address) && Lower(d.users[v]) == Lower(address) {
      assert HasEmail(d, u, address) && HasEmail(d, v, address);
    }
  }

  lemma Members(d: Directory, org: OrgId, address: string)
    ensures !MemberAddressed(d, org, address) <==>
              forall u :: u in d.users && Lower(d.users[u]) == Lower(address) ==> (org, u) !in d.members
  {
    if u :| u in d.users && Lower(d.users[u]) == Lower(address) && (org, u) in d.members {
      assert HasEmail(d, u, address);
    }
  }

  /** A new invitation comes from somebody who may offer its role, to a normalized address, for seven days. */
  lemma InvitationAppears(d: Directory, e: Event, i: InvitationId)
    requires i !in d.invitations && i in Step(d, e).invitations
    ensures e.Invite? && e.id == i && MayOffer(d, e.actor, e.org, e.role) && RoomFor(d, e.actor, e.org, Lower(Strip(e.email)))
    ensures Step(d, e).invitations[i] == Invitation(e.org, Lower(Strip(e.email)), e.role, Pending, d.now + 604_800_000_000)
  {
    if !e.Invite? { StepNarrows(d, e); }
    InvitationGranted(d, e.actor, e.org, e.email, e.role, e.id);
  }

  /** Who takes an invitation out of PENDING, to which status. */
  predicate Settles(d: Directory, e: Event, i: InvitationId, status: InvitationStatus)
    requires i in d.invitations
  {
    var org := d.invitations[i].org;
    match e
    case Accept(u, id) => id == i && status == Accepted && Answers(d, u, i) && (org, u) !in d.members
    case Decline(u, id) => id == i && status == Declined && Answers(d, u, i)
    case Revoke(actor, o, id) =>
      && id == i && status == Revoked && o == org && d.invitations[i].status == Pending
      && (Has(d, org, actor, Owner) || Has(d, org, actor, Admin))
    case Sweep => status == Expired && d.invitations[i].status == Pending && d.invitations[i].expiresAt <= d.now
    case _ => false
  }

  /** An invitation's status after any event: the settling one's, or what it was. */
  lemma StatusExactly(d: Directory, e: Event, i: InvitationId, status: InvitationStatus)
    requires i in d.invitations
    ensures i in Step(d, e).invitations
    ensures Step(d, e).invitations[i].status == status
            <==> Settles(d, e, i, status) || (d.invitations[i].status == status && forall t :: !Settles(d, e, i, t))
  {
    AnsweredStep(d, e, i);
    SettledStatus(d, e, i);
  }

  lemma SettledStatus(d: Directory, e: Event, i: InvitationId)
    requires i in d.invitations
    ensures i in Step(d, e).invitations
    ensures forall t :: Settles(d, e, i, t) ==> Step(d, e).invitations[i].status == t
    ensures (forall t :: !Settles(d, e, i, t)) ==> Step(d, e).invitations[i].status == d.invitations[i].status
  {
    var after := Step(d, e).invitations[i].status;
    if after != d.invitations[i].status { SettledBy(d, e, i); }
  }

  lemma SettledBy(d: Directory, e: Event, i: InvitationId)
    requires i in d.invitations && i in Step(d, e).invitations
    requires Step(d, e).invitations[i].status != d.invitations[i].status
    ensures Settles(d, e, i, Step(d, e).invitations[i].status)
  {
  }

  /** The seats of each plan; an organization without a subscription has no limit. */
  lemma SeatTable(d: Directory, org: OrgId)
    requires org in d.accounts && d.accounts[org].sub.Some?
    ensures SeatLimit(d, org) == match d.accounts[org].sub.value.plan
                                 case Hobby => Some(1)
                                 case Pro => Some(2)
                                 case Startup => Some(10)
                                 case Enterprise => None
                                 case Development => Some(1)
  {
  }

  /** Lower-casing changes capitals only, and leaves none. */
  lemma LowerExactly(s: string, i: nat)
    requires i < |s|
    ensures |Lower(s)| == |s|
    ensures !('A' <= Lower(s)[i] <= 'Z')
    ensures 'A' <= s[i] <= 'Z' ==> Lower(s)[i] as int == s[i] as int + 32
    ensures !('A' <= s[i] <= 'Z') ==> Lower(s)[i] == s[i]
  {
  }
}
