/** What memberships and invitations keep over whole runs. */
module IdentityLaws {
  import opened Wrappers
  import opened Collections
  import opened Plans
  import opened Identity
  import Billing

  // -- Roles -------------------------------------------------------------------

  /** No event takes an owner's role away. */
  lemma OwnerStep(d: Directory, e: Event, org: OrgId, user: UserId)
    requires org in d.orgs && (org, user) in d.members && d.members[(org, user)] == Owner
    ensures org in Step(d, e).orgs
    ensures (org, user) in Step(d, e).members && Step(d, e).members[(org, user)] == Owner
  {
  }

  /** Over every run an organization's owners stay owners. */
  lemma {:induction false} OwnersNeverShrink(d: Directory, events: seq<Event>, org: OrgId, user: UserId)
    requires org in d.orgs && (org, user) in d.members && d.members[(org, user)] == Owner
    ensures org in Run(d, events).orgs
    ensures (org, user) in Run(d, events).members && Run(d, events).members[(org, user)] == Owner
  {
    if events != [] {
      OwnersNeverShrink(d, events[..|events| - 1], org, user);
      OwnerStep(Run(d, events[..|events| - 1]), events[|events| - 1], org, user);
    }
  }

  /** The creator of an organization is its owner for good. */
  lemma CreatorStaysOwner(d: Directory, org: OrgId, creator: UserId, plan: Plan, events: seq<Event>)
    requires CreateOrganization(d, org, creator, plan, true).Ok?
    ensures
      var after := Run(Step(d, Create(org, creator, plan, true)), events);
      (org, creator) in after.members && after.members[(org, creator)] == Owner
  {
    OwnersNeverShrink(Step(d, Create(org, creator, plan, true)), events, org, creator);
  }

  // -- Invitations -------------------------------------------------------------

  ghost predicate NoOwnerInvited(d: Directory) {
    forall i :: i in d.invitations ==> d.invitations[i].role != Owner
  }

  lemma NoOwnerStep(d: Directory, e: Event)
    requires NoOwnerInvited(d)
    ensures NoOwnerInvited(Step(d, e))
  {
    if !e.Invite? { StepNarrows(d, e); }
  }

  lemma {:induction false} NeverInvitedAsOwner(d: Directory, events: seq<Event>)
    requires NoOwnerInvited(d)
    ensures NoOwnerInvited(Run(d, events))
  {
    if events != [] {
      NeverInvitedAsOwner(d, events[..|events| - 1]);
      NoOwnerStep(Run(d, events[..|events| - 1]), events[|events| - 1]);
    }
  }

  lemma AnsweredStep(d: Directory, e: Event, i: InvitationId)
    requires i in d.invitations
    ensures i in Step(d, e).invitations
    ensures Step(d, e).invitations[i].(status := Pending) == d.invitations[i].(status := Pending)
    ensures d.invitations[i].status != Pending ==> Step(d, e).invitations[i] == d.invitations[i]
  {
  }

  /** An invitation keeps its addressee and role; once answered, revoked or expired it never changes again. */
  lemma {:induction false} AnsweredForGood(d: Directory, events: seq<Event>, i: InvitationId)
    requires i in d.invitations
    ensures i in Run(d, events).invitations
    ensures Run(d, events).invitations[i].(status := Pending) == d.invitations[i].(status := Pending)
    ensures d.invitations[i].status != Pending ==> Run(d, events).invitations[i] == d.invitations[i]
  {
    if events != [] {
      AnsweredForGood(d, events[..|events| - 1], i);
      AnsweredStep(Run(d, events[..|events| - 1]), events[|events| - 1], i);
    }
  }

  lemma {:induction false} AtMostOneOutstanding(d: Directory, events: seq<Event>)
    requires OneOutstanding(d)
    ensures OneOutstanding(Run(d, events))
  {
    if events != [] {
      AtMostOneOutstanding(d, events[..|events| - 1]);
      OneOutstandingStep(Run(d, events[..|events| - 1]), events[|events| - 1]);
    }
  }

  // -- Seats -------------------------------------------------------------------

  /**
   An acceptance trades a counted invitation for a member, except at the very instant the invitation
   expires: then it is no longer counted but still accepted, and a seat is added.
   */
  lemma AcceptSeats(d: Directory, user: UserId, id: InvitationId, org: OrgId)
    requires AcceptInvitation(d, user, id).Ok?
    ensures
      var i := d.invitations[id];
      Seats(Step(d, Accept(user, id)), org) == Seats(d, org) + if i.org == org && i.expiresAt == d.now then 1 else 0
  {
    AcceptMembers(d, user, id, org);
    AcceptOutstanding(d, user, id, org);
  }

  lemma AcceptMembers(d: Directory, user: UserId, id: InvitationId, org: OrgId)
    requires AcceptInvitation(d, user, id).Ok?
    ensures |MembersOf(Step(d, Accept(user, id)), org)| == |MembersOf(d, org)| + if d.invitations[id].org == org then 1 else 0
  {
    var n := Step(d, Accept(user, id));
    if d.invitations[id].org == org {
      MembersAfterSet(d, n, org, user);
      MemberKey(d, org, user);
    } else {
      MembersElsewhere(d, n, org);
    }
  }

  lemma AcceptOutstanding(d: Directory, user: UserId, id: InvitationId, org: OrgId)
    requires AcceptInvitation(d, user, id).Ok?
    ensures
      var i := d.invitations[id];
      |OutstandingFor(Step(d, Accept(user, id)), org)|
      == |OutstandingFor(d, org)| - if i.org == org && i.expiresAt != d.now then 1 else 0
  {
    var n, i := Step(d, Accept(user, id)), d.invitations[id];
    assert OutstandingFor(n, org) == OutstandingFor(d, org) - {id};
    assert id in OutstandingFor(d, org) <==> i.org == org && i.expiresAt > d.now;
  }

  lemma MembersAfterSet(d: Directory, n: Directory, org: OrgId, user: UserId)
    requires (org, user) in n.members
    requires forall k :: k != (org, user) ==> (k in n.members <==> k in d.members)
    ensures MembersOf(n, org) == MembersOf(d, org) + {user}
  {
    forall u ensures u in MembersOf(n, org) <==> u in MembersOf(d, org) || u == user {
      assert (org, u) in n.members <==> (org, u) in d.members || u == user;
      MemberKey(n, org, u);
      MemberKey(d, org, u);
    }
  }

  lemma MemberKey(d: Directory, org: OrgId, u: UserId)
    ensures u in MembersOf(d, org) <==> (org, u) in d.members
  {
    if (org, u) in d.members {
      var k := (org, u);
      assert k.0 == org && k.1 == u;
    }
  }

  lemma MembersElsewhere(d: Directory, n: Directory, org: OrgId)
    requires forall k: (OrgId, UserId) :: k.0 == org ==> (k in n.members <==> k in d.members)
    ensures MembersOf(n, org) == MembersOf(d, org)
  {
    forall u ensures u in MembersOf(n, org) <==> u in MembersOf(d, org) {
      var k := (org, u);
      assert k.0 == org;
      MemberKey(n, org, u);
      MemberKey(d, org, u);
    }
  }

  lemma InviteSeats(d: Directory, e: Event, org: OrgId)
    requires e.Invite? && CreateInvitation(d, e.actor, e.org, e.email, e.role, e.id).Ok?
    ensures Seats(Step(d, e), org) == Seats(d, org) + if e.org == org then 1 else 0
    ensures e.org == org && SeatLimit(d, org).Some? ==> Seats(Step(d, e), org) <= SeatLimit(d, org).value
  {
    var n := Step(d, e);
    MembersElsewhere(d, n, org);
    InviteOutstanding(d, n, e.id, n.invitations[e.id], org);
  }

  lemma InviteOutstanding(d: Directory, n: Directory, id: InvitationId, i: Invitation, org: OrgId)
    requires id !in d.invitations && n.invitations == d.invitations[id := i] && n.now == d.now && Outstanding(i, n.now)
    ensures |OutstandingFor(n, org)| == |OutstandingFor(d, org)| + if i.org == org then 1 else 0
  {
    forall x ensures x in OutstandingFor(n, org) <==> x in OutstandingFor(d, org) || (x == id && i.org == org) {
      OutstandingKey(n, org, x);
      OutstandingKey(d, org, x);
    }
    OutstandingKey(d, org, id);
    OneMore(OutstandingFor(d, org), OutstandingFor(n, org), id, i.org == org);
  }

  lemma OutstandingKey(d: Directory, org: OrgId, x: InvitationId)
    ensures x in OutstandingFor(d, org) <==>
            x in d.invitations && d.invitations[x].org == org && Outstanding(d.invitations[x], d.now)
  {
  }

  lemma OneMore<T>(x: set<T>, y: set<T>, t: T, more: bool)
    requires t !in x && forall u :: u in y <==> u in x || (u == t && more)
    ensures |y| == |x| + if more then 1 else 0
  {
    assert y == if more then x + {t} else x;
  }

  lemma CreateSeats(d: Directory, e: Event, org: OrgId)
    requires Anchored(d) && e.Create? && CreateOrganization(d, e.org, e.owner, e.plan, e.validName).Ok?
    ensures Seats(Step(d, e), org) == if e.org == org then 1 else Seats(d, org)
  {
    var n := Step(d, e);
    assert OutstandingFor(n, org) == OutstandingFor(d, org);
    if e.org == org {
      MembersAfterSet(d, n, org, e.owner);
      assert MembersOf(d, org) == {};
      assert OutstandingFor(d, org) == {};
    } else {
      MembersElsewhere(d, n, org);
    }
  }

  lemma NarrowerOutstanding(d: Directory, n: Directory, org: OrgId)
    requires Narrower(d, n)
    ensures OutstandingFor(n, org) <= OutstandingFor(d, org)
  {
  }

  lemma OtherMembers(d: Directory, e: Event, org: OrgId)
    requires !e.Accept? && !e.Invite? && !e.Create?
    ensures MembersOf(Step(d, e), org) <= MembersOf(d, org)
  {
    if e.ChangeRole? { MembersElsewhere(d, Step(d, e), org); }
  }

  /** Every other event leaves seats as they are or frees some. */
  lemma OtherSeats(d: Directory, e: Event, org: OrgId)
    requires !e.Accept? && !e.Invite? && !e.Create?
    ensures Seats(Step(d, e), org) <= Seats(d, org)
  {
    var n := Step(d, e);
    StepNarrows(d, e);
    NarrowerOutstanding(d, n, org);
    OtherMembers(d, e, org);
    SubsetSize(MembersOf(n, org), MembersOf(d, org));
    SubsetSize(OutstandingFor(n, org), OutstandingFor(d, org));
  }

  ghost predicate WithinSeats(d: Directory, org: OrgId) {
    SeatLimit(d, org).Some? ==> Seats(d, org) <= SeatLimit(d, org).value
  }

  /** No invitation is accepted at the very instant it expires. */
  ghost predicate OnTime(d: Directory, e: Event) {
    e.Accept? && e.id in d.invitations ==> d.invitations[e.id].expiresAt != d.now
  }

  /** An acceptance is on time, and a new plan has room for the seats taken. */
  ghost predicate Regular(d: Directory, e: Event) {
    && OnTime(d, e)
    && (e.ChangePlan? && GetPlanConfig(e.plan).maxMembers.Some? ==>
          Seats(d, e.org) <= GetPlanConfig(e.plan).maxMembers.value)
  }

  lemma SeatsOnAccept(d: Directory, user: UserId, id: InvitationId, org: OrgId)
    requires WithinSeats(d, org) && OnTime(d, Accept(user, id))
    ensures WithinSeats(Step(d, Accept(user, id)), org)
  {
    if AcceptInvitation(d, user, id).Ok? { AcceptSeats(d, user, id, org); }
  }

  lemma SeatsOnInvite(d: Directory, e: Event, org: OrgId)
    requires WithinSeats(d, org) && e.Invite?
    ensures WithinSeats(Step(d, e), org)
  {
    if CreateInvitation(d, e.actor, e.org, e.email, e.role, e.id).Ok? { InviteSeats(d, e, org); }
  }

  lemma SeatsOnCreate(d: Directory, e: Event, org: OrgId)
    requires Anchored(d) && WithinSeats(d, org) && e.Create?
    ensures WithinSeats(Step(d, e), org)
  {
    if CreateOrganization(d, e.org, e.owner, e.plan, e.validName).Ok? { CreateSeats(d, e, org); }
  }

  lemma SeatsOnPlan(d: Directory, e: Event, org: OrgId)
    requires WithinSeats(d, org) && e.ChangePlan? && Regular(d, e)
    ensures WithinSeats(Step(d, e), org)
  {
    OtherSeats(d, e, org);
  }

  lemma SeatsOnRest(d: Directory, e: Event, org: OrgId)
    requires WithinSeats(d, org) && !e.Accept? && !e.Invite? && !e.Create? && !e.ChangePlan?
    ensures WithinSeats(Step(d, e), org)
  {
    OtherSeats(d, e, org);
    assert Step(d, e).accounts == d.accounts;
  }

  lemma SeatStep(d: Directory, e: Event, org: OrgId)
    requires Anchored(d) && WithinSeats(d, org) && Regular(d, e)
    ensures WithinSeats(Step(d, e), org)
  {
    match e
    case Accept(user, id) => SeatsOnAccept(d, user, id, org);
    case Invite(_, _, _, _, _) => SeatsOnInvite(d, e, org);
    case Create(_, _, _, _) => SeatsOnCreate(d, e, org);
    case ChangePlan(_, _) => SeatsOnPlan(d, e, org);
    case _ => SeatsOnRest(d, e, org);
  }

  ghost predicate RegularRun(d: Directory, events: seq<Event>) {
    events == [] ||
    (RegularRun(d, events[..|events| - 1]) && Regular(Run(d, events[..|events| - 1]), events[|events| - 1]))
  }

  /** Members and outstanding invitations together never exceed the plan, over every regular run. */
  lemma {:induction false} SeatsConserved(events: seq<Event>, org: OrgId)
    requires RegularRun(EMPTY, events)
    ensures Anchored(Run(EMPTY, events)) && WithinSeats(Run(EMPTY, events), org)
  {
    if events != [] {
      SeatsConserved(events[..|events| - 1], org);
      AnchoredStep(Run(EMPTY, events[..|events| - 1]), events[|events| - 1]);
      SeatStep(Run(EMPTY, events[..|events| - 1]), events[|events| - 1], org);
    }
  }

  /** At a full organization, accepting keeps the limit if and only if the invitation does not expire at that instant. */
  lemma FullOrganization(d: Directory, user: UserId, id: InvitationId)
    requires AcceptInvitation(d, user, id).Ok?
    requires var org := d.invitations[id].org;
             SeatLimit(d, org).Some? && Seats(d, org) == SeatLimit(d, org).value
    ensures WithinSeats(Step(d, Accept(user, id)), d.invitations[id].org) <==> d.invitations[id].expiresAt != d.now
  {
    AcceptSeats(d, user, id, d.invitations[id].org);
  }

  /** The organization "o" of user "u" on the PRO plan, with the given invitations. */
  function Duo(invitations: map<InvitationId, Invitation>, now: Time): Directory {
    Directory({"o"}, map["o" := Billing.NewOrganization(Pro, 0)], {("o", "onboarding")}, map["u" := "u", "v" := "v"],
              map[("o", "u") := Owner], invitations, now)
  }

  function Invited(email: string, expiresAt: Time): Invitation {
    Invitation("o", email, Member, Pending, expiresAt)
  }

  lemma DuoFounded()
    ensures Founded() == Duo(map[], 0)
  {
    assert OwnedBy(Step(Step(EMPTY, Register("u", "u")), Register("v", "v")), "u") == {};
  }

  lemma DuoMembers(invitations: map<InvitationId, Invitation>, now: Time)
    ensures MembersOf(Duo(invitations, now), "o") == {"u"}
  {
    MemberKey(Duo(invitations, now), "o", "u");
    forall x | x in MembersOf(Duo(invitations, now), "o") ensures x == "u" { MemberKey(Duo(invitations, now), "o", x); }
  }

  lemma DuoAddresses(invitations: map<InvitationId, Invitation>, now: Time, email: string)
    requires email == "v" || email == "w"
    requires forall i :: i in invitations ==> !Outstanding(invitations[i], now)
    ensures Lower(Strip(email)) == email && !HasEmail(Duo(invitations, now), "u", email)
    ensures !SharedEmail(Duo(invitations, now), email)
    ensures !MemberAddressed(Duo(invitations, now), "o", email)
    ensures OutstandingFor(Duo(invitations, now), "o") == {}
  {
    assert Strip(email) == email;
    assert Lower(email) == email && Lower("u") == "u" && Lower("v") == "v";
  }

  /** While no invitation is outstanding, the owner may invite one more. */
  lemma DuoInvites(invitations: map<InvitationId, Invitation>, now: Time, email: string, id: InvitationId)
    requires email == "v" || email == "w"
    requires forall i :: i in invitations ==> !Outstanding(invitations[i], now)
    requires id !in invitations
    ensures CreateInvitation(Duo(invitations, now), "u", "o", email, Member, id)
            == Ok(Duo(invitations[id := Invited(email, now + INVITATION_TTL)], now))
  {
    DuoMembers(invitations, now);
    DuoAddresses(invitations, now, email);
  }

  lemma DuoInvited(invitations: map<InvitationId, Invitation>, now: Time, email: string, id: InvitationId)
    requires email == "v" || email == "w"
    requires forall i :: i in invitations ==> !Outstanding(invitations[i], now)
    requires id !in invitations
    ensures Step(Duo(invitations, now), Invite("u", "o", email, Member, id))
            == Duo(invitations[id := Invited(email, now + INVITATION_TTL)], now)
  {
    DuoInvites(invitations, now, email, id);
  }

  ghost predicate Crossing(d: Directory) {
    && d == Duo(d.invitations, INVITATION_TTL)
    && d.invitations == map["i" := Invited("v", INVITATION_TTL), "j" := Invited("w", 2 * INVITATION_TTL)]
  }

  lemma CrossingSeats(d: Directory)
    requires Crossing(d)
    ensures AcceptInvitation(d, "v", "i").Ok? && d.invitations["i"].org == "o" && d.invitations["i"].expiresAt == d.now
    ensures Seats(d, "o") == 2 && SeatLimit(d, "o") == Some(2)
  {
    DuoMembers(d.invitations, INVITATION_TTL);
    assert OutstandingFor(d, "o") == {"j"};
  }

  lemma CrossingOverflows(d: Directory)
    requires Crossing(d)
    ensures Seats(d, "o") == 2 && SeatLimit(d, "o") == Some(2) && Seats(Step(d, Accept("v", "i")), "o") == 3
  {
    CrossingSeats(d);
    AcceptSeats(d, "v", "i", "o");
  }

  /** "u" founds "o" on the PRO plan; "v" is registered. */
  function Founded(): Directory {
    Step(Step(Step(EMPTY, Register("u", "u")), Register("v", "v")), Create("o", "u", Pro, true))
  }

  function FirstInvited(): Directory {
    Step(Founded(), Invite("u", "o", "v", Member, "i"))
  }

  /** Seven days later, at the instant the first invitation expires, the place is offered again. */
  function BothInvited(): Directory {
    Step(Step(FirstInvited(), Tick(INVITATION_TTL)), Invite("u", "o", "w", Member, "j"))
  }

  lemma FirstInvitedIs()
    ensures FirstInvited() == Duo(map["i" := Invited("v", INVITATION_TTL)], 0)
  {
    DuoFounded();
    DuoInvited(map[], 0, "v", "i");
  }

  lemma DuoTick(invitations: map<InvitationId, Invitation>, later: Time)
    requires later > 0
    ensures Step(Duo(invitations, 0), Tick(later)) == Duo(invitations, later)
  {
  }

  lemma BothInvitedCross()
    ensures Crossing(BothInvited())
  {
    var one := map["i" := Invited("v", INVITATION_TTL)];
    FirstInvitedIs();
    DuoTick(one, INVITATION_TTL);
    DuoInvited(one, INVITATION_TTL, "w", "j");
  }

  /** The first invitation is then accepted at that same instant, and a plan of two seats has three taken. */
  lemma SeatsOverflowAtExpiry()
    ensures SeatLimit(BothInvited(), "o") == Some(2)
    ensures Seats(BothInvited(), "o") == 2 && Seats(Step(BothInvited(), Accept("v", "i")), "o") == 3
  {
    BothInvitedCross();
    CrossingOverflows(BothInvited());
  }

  // -- Who is already a member -------------------------------------------------

  ghost predicate UniqueEmails(d: Directory) {
    forall u, v :: u in d.users && v in d.users && u != v ==> Lower(d.users[u]) != Lower(d.users[v])
  }

  /** No outstanding invitation is addressed to a member of its organization. */
  ghost predicate OutsidersInvited(d: Directory) {
    && OneOutstanding(d)
    && UniqueEmails(d)
    && (forall i :: i in d.invitations ==> Lower(d.invitations[i].email) == d.invitations[i].email)
    && (forall k :: k in d.members ==> k.1 in d.users)
    && forall i, u :: i in d.invitations && Outstanding(d.invitations[i], d.now) && u in d.users ==>
         (Lower(d.users[u]) == d.invitations[i].email ==> (d.invitations[i].org, u) !in d.members)
  }

  /** Users that register or found organizations are known and have an address of their own. */
  ghost predicate Identified(d: Directory, e: Event) {
    match e
    case Register(user, address) => forall u :: u in d.users ==> Lower(d.users[u]) != Lower(address)
    case Create(_, owner, _, _) => owner in d.users
    case _ => true
  }

  lemma LowerTwice(s: string)
    ensures Lower(Lower(s)) == Lower(s)
  {
  }

  lemma OutsidersStep(d: Directory, e: Event)
    requires Anchored(d) && OutsidersInvited(d) && OnTime(d, e) && Identified(d, e)
    ensures OutsidersInvited(Step(d, e))
  {
    match e
    case Invite(_, _, _, _, _) => InviteOutsiders(d, e);
    case Accept(user, id) => AcceptOutsiders(d, user, id);
    case Create(_, _, _, _) => CreateOutsiders(d, e);
    case Register(_, _) => RegisterOutsiders(d, e);
    case ChangeRole(_, _, _, _) => OneOutstandingStep(d, e);
    case Remove(_, _, _) => OneOutstandingStep(d, e);
    case _ =>
      NarrowingStep(d, e);
      OneOutstandingStep(d, e);
      NarrowedOutsiders(d, Step(d, e));
  }

  /** The same users and members, and no invitation outstanding that was not before. */
  ghost predicate Narrowed(d: Directory, n: Directory) {
    n.users == d.users && n.members == d.members && Narrower(d, n)
  }

  lemma NarrowingStep(d: Directory, e: Event)
    requires e.Decline? || e.Revoke? || e.Sweep? || e.ChangePlan? || e.Tick?
    ensures Narrowed(d, Step(d, e))
  {
    StepNarrows(d, e);
  }

  lemma NarrowedOutsiders(d: Directory, n: Directory)
    requires OutsidersInvited(d) && Narrowed(d, n) && OneOutstanding(n)
    ensures OutsidersInvited(n)
  {
  }

  lemma InviteOutsiders(d: Directory, e: Event)
    requires OutsidersInvited(d) && e.Invite?
    ensures OutsidersInvited(Step(d, e))
  {
    OneOutstandingStep(d, e);
    LowerTwice(Strip(e.email));
    var r := CreateInvitation(d, e.actor, e.org, e.email, e.role, e.id);
    if r.Ok? {
      var address := Lower(Strip(e.email));
      assert !MemberAddressed(d, e.org, address);
      assert forall u :: u in d.users && Lower(d.users[u]) == address ==> HasEmail(d, u, address);
    }
  }

  lemma CreateOutsiders(d: Directory, e: Event)
    requires Anchored(d) && OutsidersInvited(d) && e.Create? && Identified(d, e)
    ensures OutsidersInvited(Step(d, e))
  {
    OneOutstandingStep(d, e);
  }

  lemma RegisterOutsiders(d: Directory, e: Event)
    requires OutsidersInvited(d) && e.Register? && Identified(d, e)
    ensures OutsidersInvited(Step(d, e))
  {
    OneOutstandingStep(d, e);
  }

  lemma AcceptOutsiders(d: Directory, user: UserId, id: InvitationId)
    requires OutsidersInvited(d) && OnTime(d, Accept(user, id))
    ensures OutsidersInvited(Step(d, Accept(user, id)))
  {
    OneOutstandingStep(d, Accept(user, id));
    var n := Step(d, Accept(user, id));
    if AcceptInvitation(d, user, id).Ok? {
      assert Outstanding(d.invitations[id], d.now);
      forall j, u | j in n.invitations && Outstanding(n.invitations[j], n.now) && u in n.users
                    && Lower(n.users[u]) == n.invitations[j].email
        ensures (n.invitations[j].org, u) !in n.members
      {
        assert j != id && n.invitations[j] == d.invitations[j];
      }
    }
  }

  ghost predicate IdentifiedRun(d: Directory, events: seq<Event>) {
    events == [] ||
    var before := Run(d, events[..|events| - 1]);
    && IdentifiedRun(d, events[..|events| - 1])
    && Identified(before, events[|events| - 1]) && OnTime(before, events[|events| - 1])
  }

  lemma {:induction false} OutsidersOverRuns(events: seq<Event>)
    requires IdentifiedRun(EMPTY, events)
    ensures Anchored(Run(EMPTY, events)) && OutsidersInvited(Run(EMPTY, events))
  {
    if events != [] {
      OutsidersOverRuns(events[..|events| - 1]);
      AnchoredStep(Run(EMPTY, events[..|events| - 1]), events[|events| - 1]);
      OutsidersStep(Run(EMPTY, events[..|events| - 1]), events[|events| - 1]);
    }
  }

  lemma SecondAcceptanceRefused(d: Directory, user: UserId, i: InvitationId, j: InvitationId)
    requires AcceptInvitation(d, user, i).Ok? && AcceptInvitation(d, user, j).Ok? && i != j
    requires d.invitations[i].org == d.invitations[j].org
    ensures AcceptInvitation(Step(d, Accept(user, i)), user, j) == Err(AlreadyMember)
  {
  }

  /** "v" is invited, and invited again at the instant that invitation expires. */
  function InvitedTwice(): Directory {
    Step(Step(FirstInvited(), Tick(INVITATION_TTL)), Invite("u", "o", "v", Member, "j"))
  }

  lemma InvitedTwiceIs()
    ensures InvitedTwice()
            == Duo(map["i" := Invited("v", INVITATION_TTL), "j" := Invited("v", 2 * INVITATION_TTL)], INVITATION_TTL)
  {
    var one := map["i" := Invited("v", INVITATION_TTL)];
    FirstInvitedIs();
    DuoTick(one, INVITATION_TTL);
    DuoInvited(one, INVITATION_TTL, "v", "j");
  }

  /** At that instant both are open, and whoever accepts the first is refused the second as a member already. */
  lemma AlreadyMemberAtExpiry()
    ensures AcceptInvitation(InvitedTwice(), "v", "i").Ok?
    ensures AcceptInvitation(Step(InvitedTwice(), Accept("v", "i")), "v", "j") == Err(AlreadyMember)
  {
    InvitedTwiceIs();
    BothOpen(InvitedTwice());
    SecondAcceptanceRefused(InvitedTwice(), "v", "i", "j");
  }

  lemma BothOpen(d: Directory)
    requires d == Duo(map["i" := Invited("v", INVITATION_TTL), "j" := Invited("v", 2 * INVITATION_TTL)], INVITATION_TTL)
    ensures AcceptInvitation(d, "v", "i").Ok? && AcceptInvitation(d, "v", "j").Ok?
    ensures d.invitations["i"].org == d.invitations["j"].org
  {
    MemberKey(d, "o", "v");
  }

  /** With addresses unique, the "already a member" refusal of an acceptance is never reached. */
  lemma AlreadyMemberUnreachable(events: seq<Event>, user: UserId, id: InvitationId)
    requires IdentifiedRun(EMPTY, events) && OnTime(Run(EMPTY, events), Accept(user, id))
    ensures AcceptInvitation(Run(EMPTY, events), user, id) != Err(AlreadyMember)
  {
    OutsidersOverRuns(events);
  }
}
