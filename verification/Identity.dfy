/**
 Organizations, memberships and invitations (backend/app/services/identity_service.py, with the
 queries of backend/app/infrastructure/db/repositories/identity_repo.py, invitation_repo.py and
 user_repo.py). Each request is one transaction: a raised error leaves every row as it was.
 */
module Identity {
  import opened Wrappers
  import opened Plans
  import Billing

  type UserId = string
  type OrgId = string
  type InvitationId = string
  type Time = nat

  datatype Role = Owner | Admin | Member

  datatype InvitationStatus = Pending | Accepted | Declined | Revoked | Expired

  datatype Invitation = Invitation(org: OrgId, email: string, role: Role, status: InvitationStatus, expiresAt: Time)

  datatype Error =
    | OrgLimitReached | InvalidName | NotMember | NotAllowed | SelfInvite | AlreadyMember
    | AlreadyInvited | QuotaExceeded | NotFound | WrongEmail | AlreadyProcessed | HasExpired | DuplicateRow

  datatype Directory = Directory(
    orgs: set<OrgId>, accounts: map<OrgId, Billing.Account>, projects: set<(OrgId, string)>, users: map<UserId, string>,
    members: map<(OrgId, UserId), Role>, invitations: map<InvitationId, Invitation>, now: Time)

  const INVITATION_TTL: Time := 604_800_000_000 // seven days, in microseconds

  // -- Queries -----------------------------------------------------------------

  function LowerChar(c: char): char {
    if 'A' <= c <= 'Z' then (c as int - 'A' as int + 'a' as int) as char else c
  }

  function Lower(s: string): string {
    seq(|s|, i requires 0 <= i < |s| => LowerChar(s[i]))
  }

  /** The characters that str.isspace accepts. */
  predicate IsSpace(c: char) {
    var n := c as int;
    || 0x09 <= n <= 0x0d || 0x1c <= n <= 0x20 || n == 0x85 || n == 0xa0 || n == 0x1680 || 0x2000 <= n <= 0x200a
    || n == 0x2028 || n == 0x2029 || n == 0x202f || n == 0x205f || n == 0x3000
  }

  function Strip(s: string): string {
    if s != "" && IsSpace(s[0]) then Strip(s[1..])
    else if s != "" && IsSpace(s[|s| - 1]) then Strip(s[..|s| - 1])
    else s
  }

  ghost predicate SpaceBetween(s: string, lo: nat, hi: nat) {
    forall k :: lo <= k < hi && k < |s| ==> IsSpace(s[k])
  }

  /** `s[i..j]` is `s` without whitespace before and after, and has none left at its ends. */
  ghost predicate TrimmedAt(s: string, i: nat, j: nat) {
    && i <= j <= |s| && SpaceBetween(s, 0, i) && SpaceBetween(s, j, |s|)
    && (i < j ==> !IsSpace(s[i]) && !IsSpace(s[j - 1]))
  }

  /** Stripping removes the whitespace at the two ends, all of it and nothing else. */
  lemma {:induction false} StripTrims(s: string) returns (i: nat, j: nat)
    ensures TrimmedAt(s, i, j) && Strip(s) == s[i..j]
  {
    if s != "" && IsSpace(s[0]) {
      i, j := StripTrims(s[1..]);
      FrontTrimmed(s, i, j);
      i, j := i + 1, j + 1;
    } else if s != "" && IsSpace(s[|s| - 1]) {
      i, j := StripTrims(s[..|s| - 1]);
      BackTrimmed(s, i, j);
    } else {
      i, j := 0, |s|;
      assert s == s[0..|s|];
    }
  }

  lemma FrontTrimmed(s: string, i: nat, j: nat)
    requires s != "" && IsSpace(s[0]) && TrimmedAt(s[1..], i, j)
    ensures TrimmedAt(s, i + 1, j + 1) && s[1..][i..j] == s[i + 1..j + 1]
  {
    var rest := s[1..];
    assert forall k :: 0 < k < |s| ==> s[k] == rest[k - 1];
  }

  lemma BackTrimmed(s: string, i: nat, j: nat)
    requires s != "" && IsSpace(s[|s| - 1]) && TrimmedAt(s[..|s| - 1], i, j)
    ensures TrimmedAt(s, i, j) && s[..|s| - 1][i..j] == s[i..j]
  {
    var rest := s[..|s| - 1];
    assert forall k :: 0 <= k < |rest| ==> s[k] == rest[k];
  }

  function MembersOf(d: Directory, org: OrgId): set<UserId> {
    set k | k in d.members && k.0 == org :: k.1
  }

  /** Counted against the plan and looked up as duplicates: PENDING, expiring strictly later. */
  predicate Outstanding(i: Invitation, now: Time) {
    i.status == Pending && i.expiresAt > now
  }

  function OutstandingFor(d: Directory, org: OrgId): set<InvitationId> {
    set i | i in d.invitations && d.invitations[i].org == org && Outstanding(d.invitations[i], d.now)
  }

  function OwnedBy(d: Directory, user: UserId): set<OrgId> {
    set k | k in d.members && k.1 == user && d.members[k] == Owner :: k.0
  }

  function Seats(d: Directory, org: OrgId): nat {
    |MembersOf(d, org)| + |OutstandingFor(d, org)|
  }

  function SeatLimit(d: Directory, org: OrgId): Option<nat> {
    if org in d.accounts && d.accounts[org].sub.Some? then GetPlanConfig(d.accounts[org].sub.value.plan).maxMembers else None
  }

  predicate HasEmail(d: Directory, user: UserId, email: string) {
    user in d.users && Lower(d.users[user]) == Lower(email)
  }

  /** Two users under one address: the lookup for a single row raises. */
  predicate SharedEmail(d: Directory, email: string) {
    exists u, v :: u in d.users && v in d.users && u != v && HasEmail(d, u, email) && HasEmail(d, v, email)
  }

  predicate MemberAddressed(d: Directory, org: OrgId, email: string) {
    exists u :: u in d.users && HasEmail(d, u, email) && (org, u) in d.members
  }

  predicate InvitationPending(d: Directory, org: OrgId, email: string) {
    exists i :: i in OutstandingFor(d, org) && d.invitations[i].email == email
  }

  // -- Requests ----------------------------------------------------------------

  /** The rows of a new organization: itself, its owner, its subscription and first period, its first project. */
  function Founding(d: Directory, org: OrgId, owner: UserId, plan: Plan): Directory {
    d.(orgs := d.orgs + {org}, members := d.members[(org, owner) := Owner],
       accounts := d.accounts[org := Billing.NewOrganization(plan, d.now)],
       projects := d.projects + {(org, "onboarding")})
  }

  function CreateOrganization(d: Directory, org: OrgId, owner: UserId, plan: Plan, validName: bool): Result<Directory, Error> {
    if |OwnedBy(d, owner)| >= MAX_OWNED_ORGS then Err(OrgLimitReached)
    else if !validName then Err(InvalidName)
    else if org in d.orgs then Err(DuplicateRow)
    else Ok(Founding(d, org, owner, plan))
  }

  /** Why an invitation to `address` is refused, if it is. */
  function Refusal(d: Directory, actor: UserId, org: OrgId, address: string, role: Role, id: InvitationId): Option<Error> {
    if (org, actor) !in d.members then Some(NotMember)
    else if d.members[(org, actor)] == Member then Some(NotAllowed)
    else if d.members[(org, actor)] == Admin && role != Member then Some(NotAllowed)
    else if role == Owner then Some(NotAllowed)
    else if HasEmail(d, actor, address) then Some(SelfInvite)
    else if SharedEmail(d, address) then Some(DuplicateRow)
    else if MemberAddressed(d, org, address) then Some(AlreadyMember)
    else if InvitationPending(d, org, address) then Some(AlreadyInvited)
    else if SeatLimit(d, org).Some? && Seats(d, org) >= SeatLimit(d, org).value then Some(QuotaExceeded)
    else if id in d.invitations then Some(DuplicateRow)
    else None
  }

  function CreateInvitation(d: Directory, actor: UserId, org: OrgId, email: string, role: Role, id: InvitationId)
    : Result<Directory, Error>
  {
    var address := Lower(Strip(email));
    match Refusal(d, actor, org, address, role, id)
    case Some(e) => Err(e)
    case None =>
      Ok(d.(invitations := d.invitations[id := Invitation(org, address, role, Pending, d.now + INVITATION_TTL)]))
  }

  /** The checks that accepting and declining share; an expiry at this very instant still passes. */
  function MayAnswer(d: Directory, user: UserId, id: InvitationId): Result<Invitation, Error> {
    if id !in d.invitations || user !in d.users then Err(NotFound)
    else if Lower(d.users[user]) != Lower(d.invitations[id].email) then Err(WrongEmail)
    else if d.invitations[id].status != Pending then Err(AlreadyProcessed)
    else if d.invitations[id].expiresAt < d.now then Err(HasExpired)
    else Ok(d.invitations[id])
  }

  function Mark(d: Directory, id: InvitationId, status: InvitationStatus): Directory
    requires id in d.invitations
  {
    d.(invitations := d.invitations[id := d.invitations[id].(status := status)])
  }

  function AcceptInvitation(d: Directory, user: UserId, id: InvitationId): Result<Directory, Error> {
    match MayAnswer(d, user, id)
    case Err(e) => Err(e)
    case Ok(i) =>
      if (i.org, user) in d.members then Err(AlreadyMember)
      else Ok(Mark(d.(members := d.members[(i.org, user) := i.role]), id, Accepted))
  }

  function DeclineInvitation(d: Directory, user: UserId, id: InvitationId): Result<Directory, Error> {
    match MayAnswer(d, user, id)
    case Err(e) => Err(e)
    case Ok(_) => Ok(Mark(d, id, Declined))
  }

  function RevokeInvitation(d: Directory, actor: UserId, org: OrgId, id: InvitationId): Result<Directory, Error> {
    if id !in d.invitations || d.invitations[id].org != org then Err(NotFound)
    else if (org, actor) !in d.members then Err(NotMember)
    else if d.members[(org, actor)] == Member then Err(NotAllowed)
    else if d.invitations[id].status != Pending then Err(AlreadyProcessed)
    else Ok(Mark(d, id, Revoked))
  }

  function UpdateMemberRole(d: Directory, actor: UserId, org: OrgId, target: UserId, role: Role): Result<Directory, Error> {
    if actor == target then Err(NotAllowed)
    else if (org, actor) !in d.members then Err(NotMember)
    else if d.members[(org, actor)] != Owner then Err(NotAllowed)
    else if (org, target) !in d.members then Err(NotFound)
    else if d.members[(org, target)] == Owner then Err(NotAllowed)
    else Ok(d.(members := d.members[(org, target) := role]))
  }

  function RemoveMember(d: Directory, actor: UserId, org: OrgId, target: UserId): Result<Directory, Error> {
    if (org, actor) !in d.members then Err(NotMember)
    else if (org, target) !in d.members then Err(NotFound)
    else if d.members[(org, target)] == Owner then Err(NotAllowed)
    else if d.members[(org, actor)] == Member then Err(NotAllowed)
    else if d.members[(org, actor)] == Admin && d.members[(org, target)] != Member then Err(NotAllowed)
    else Ok(d.(members := d.members - {(org, target)}))
  }

  function ExpireStale(d: Directory): Directory {
    d.(invitations := map i | i in d.invitations ::
         if d.invitations[i].status == Pending && d.invitations[i].expiresAt <= d.now
         then d.invitations[i].(status := Expired) else d.invitations[i])
  }

  /** Billing webhooks change an organization's plan from outside. */
  function ReplacePlan(d: Directory, org: OrgId, plan: Plan): Directory {
    if org in d.accounts && d.accounts[org].sub.Some?
    then d.(accounts := d.accounts[org := d.accounts[org].(sub := Some(d.accounts[org].sub.value.(plan := plan)))])
    else d
  }

  // -- Runs --------------------------------------------------------------------

  datatype Event =
    | Register(user: UserId, address: string)
    | Create(org: OrgId, owner: UserId, plan: Plan, validName: bool)
    | Invite(actor: UserId, org: OrgId, email: string, role: Role, id: InvitationId)
    | Accept(user: UserId, id: InvitationId)
    | Decline(user: UserId, id: InvitationId)
    | Revoke(actor: UserId, org: OrgId, id: InvitationId)
    | ChangeRole(actor: UserId, org: OrgId, target: UserId, role: Role)
    | Remove(actor: UserId, org: OrgId, target: UserId)
    | Sweep
    | ChangePlan(org: OrgId, plan: Plan)
    | Tick(later: Time)

  function Apply(d: Directory, r: Result<Directory, Error>): Directory {
    if r.Ok? then r.value else d
  }

  function Step(d: Directory, e: Event): Directory {
    match e
    case Register(user, address) =>
      if user in d.users || exists u :: u in d.users && d.users[u] == address then d
      else d.(users := d.users[user := address])
    case Create(org, owner, plan, validName) => Apply(d, CreateOrganization(d, org, owner, plan, validName))
    case Invite(actor, org, email, role, id) => Apply(d, CreateInvitation(d, actor, org, email, role, id))
    case Accept(user, id) => Apply(d, AcceptInvitation(d, user, id))
    case Decline(user, id) => Apply(d, DeclineInvitation(d, user, id))
    case Revoke(actor, org, id) => Apply(d, RevokeInvitation(d, actor, org, id))
    case ChangeRole(actor, org, target, role) => Apply(d, UpdateMemberRole(d, actor, org, target, role))
    case Remove(actor, org, target) => Apply(d, RemoveMember(d, actor, org, target))
    case Sweep => ExpireStale(d)
    case ChangePlan(org, plan) => ReplacePlan(d, org, plan)
    case Tick(later) => if later > d.now then d.(now := later) else d
  }

  function Run(d: Directory, events: seq<Event>): Directory {
    if events == [] then d else Step(Run(d, events[..|events| - 1]), events[|events| - 1])
  }

  const EMPTY := Directory({}, map[], {}, map[], map[], map[], 0)

  // -- What every request keeps ------------------------------------------------

  /** Rows refer to organizations that exist. */
  ghost predicate Anchored(d: Directory) {
    && d.accounts.Keys == d.orgs
    && (forall k :: k in d.members ==> k.0 in d.orgs)
    && (forall i :: i in d.invitations ==> d.invitations[i].org in d.orgs)
  }

  /** At most one outstanding invitation for each organization and address. */
  ghost predicate OneOutstanding(d: Directory) {
    forall i, j :: i in d.invitations && j in d.invitations && i != j
      && Outstanding(d.invitations[i], d.now) && Outstanding(d.invitations[j], d.now)
      && d.invitations[i].org == d.invitations[j].org
      ==> d.invitations[i].email != d.invitations[j].email
  }

  lemma AnchoredCreate(d: Directory, e: Event)
    requires Anchored(d) && e.Create?
    ensures Anchored(Step(d, e))
  {
  }

  lemma AnchoredInvite(d: Directory, e: Event)
    requires Anchored(d) && e.Invite?
    ensures Anchored(Step(d, e))
  {
  }

  lemma AnchoredAnswer(d: Directory, e: Event)
    requires Anchored(d) && (e.Accept? || e.Decline? || e.Revoke? || e.Sweep?)
    ensures Anchored(Step(d, e))
  {
  }

  lemma AnchoredStep(d: Directory, e: Event)
    requires Anchored(d)
    ensures Anchored(Step(d, e))
  {
    match e
    case Create(_, _, _, _) => AnchoredCreate(d, e);
    case Invite(_, _, _, _, _) => AnchoredInvite(d, e);
    case Accept(_, _) => AnchoredAnswer(d, e);
    case Decline(_, _) => AnchoredAnswer(d, e);
    case Revoke(_, _, _) => AnchoredAnswer(d, e);
    case Sweep => AnchoredAnswer(d, e);
    case _ =>
  }

  /** The same invitations but for their status, and none outstanding that was not before. */
  ghost predicate Narrower(d: Directory, n: Directory) {
    forall i :: i in n.invitations ==>
      && i in d.invitations
      && n.invitations[i].(status := Pending) == d.invitations[i].(status := Pending)
      && (Outstanding(n.invitations[i], n.now) ==> Outstanding(d.invitations[i], d.now))
  }

  lemma MarkNarrows(d: Directory, id: InvitationId, status: InvitationStatus)
    requires id in d.invitations && status != Pending
    ensures Narrower(d, Mark(d, id, status))
  {
  }

  lemma SweepNarrows(d: Directory)
    ensures Narrower(d, ExpireStale(d))
  {
  }

  lemma AnswerNarrows(d: Directory, user: UserId, id: InvitationId)
    ensures Narrower(d, Step(d, Accept(user, id))) && Narrower(d, Step(d, Decline(user, id)))
  {
    if MayAnswer(d, user, id).Ok? {
      MarkNarrows(d, id, Accepted);
      MarkNarrows(d, id, Declined);
    }
  }

  lemma RevokeNarrows(d: Directory, actor: UserId, org: OrgId, id: InvitationId)
    ensures Narrower(d, Step(d, Revoke(actor, org, id)))
  {
    if id in d.invitations { MarkNarrows(d, id, Revoked); }
  }

  lemma TimeNarrows(d: Directory, n: Directory)
    requires n.invitations == d.invitations && n.now >= d.now
    ensures Narrower(d, n)
  {
  }

  lemma StepNarrows(d: Directory, e: Event)
    requires !e.Invite?
    ensures Narrower(d, Step(d, e))
  {
    match e
    case Accept(user, id) => AnswerNarrows(d, user, id);
    case Decline(user, id) => AnswerNarrows(d, user, id);
    case Revoke(actor, org, id) => RevokeNarrows(d, actor, org, id);
    case Sweep => SweepNarrows(d);
    case _ => TimeNarrows(d, Step(d, e));
  }

  lemma NarrowerKeepsOne(d: Directory, n: Directory)
    requires OneOutstanding(d) && Narrower(d, n)
    ensures OneOutstanding(n)
  {
  }

  lemma InviteKeepsOne(d: Directory, e: Event)
    requires OneOutstanding(d) && e.Invite?
    ensures OneOutstanding(Step(d, e))
  {
    assert forall i :: i in d.invitations && d.invitations[i].org == e.org && Outstanding(d.invitations[i], d.now)
             ==> i in OutstandingFor(d, e.org);
  }

  lemma OneOutstandingStep(d: Directory, e: Event)
    requires OneOutstanding(d)
    ensures OneOutstanding(Step(d, e))
  {
    if e.Invite? {
      InviteKeepsOne(d, e);
    } else {
      StepNarrows(d, e);
      NarrowerKeepsOne(d, Step(d, e));
    }
  }

  ghost predicate Consistent(d: Directory) {
    Anchored(d) && OneOutstanding(d)
  }

  lemma ConsistentStep(d: Directory, e: Event)
    requires Consistent(d)
    ensures Consistent(Step(d, e))
  {
    AnchoredStep(d, e);
    OneOutstandingStep(d, e);
  }

  // -- The service -------------------------------------------------------------

  class IdentityService {
    var orgs: set<OrgId>
    var accounts: map<OrgId, Billing.Account>
    var projects: set<(OrgId, string)>
    var users: map<UserId, string>
    var members: map<(OrgId, UserId), Role>
    var invitations: map<InvitationId, Invitation>
    var now: Time

    function Rows(): Directory
      reads this
    {
      Directory(orgs, accounts, projects, users, members, invitations, now)
    }

    /** Rows refer to existing organizations, and no address has two outstanding invitations to one of them. */
    ghost predicate Valid()
      reads this
    {
      Consistent(Rows())
    }

    constructor ()
      ensures Valid() && Rows() == EMPTY
    {
      orgs, accounts, projects, users, members, invitations, now := {}, map[], {}, map[], map[], map[], 0;
    }

    /** Adds the rows of a new organization one by one. */
    method Found(org: OrgId, owner: UserId, plan: Plan)
      modifies this
      ensures Rows() == Founding(old(Rows()), org, owner, plan)
      ensures orgs == old(orgs) + {org} && members == old(members)[(org, owner) := Owner]
      ensures projects == old(projects) + {(org, "onboarding")}
      ensures accounts == old(accounts)[org := Billing.Account(
                Some(Billing.Subscription(plan, Billing.Active, None, None, now, now + 30 * Billing.DAY, None)),
                map[now := Billing.UsageRecord(ZERO, ZERO, false, None, now + 30 * Billing.DAY)], [])]
      ensures users == old(users) && invitations == old(invitations) && now == old(now)
    {
      orgs := orgs + {org};
      members := members[(org, owner) := Owner];
      var end := now + 30 * Billing.DAY;
      var sub := Billing.Subscription(plan, Billing.Active, None, None, now, end, None);
      accounts := accounts[org := Billing.Account(Some(sub), map[now := Billing.FreshRecord(end)], [])];
      projects := projects + {(org, "onboarding")};
    }

    method NewOrganization(org: OrgId, owner: UserId, plan: Plan, validName: bool) returns (r: Result<bool, Error>)
      requires Valid()
      modifies this
      ensures Valid()
      ensures Rows() == Apply(old(Rows()), CreateOrganization(old(Rows()), org, owner, plan, validName))
      ensures r.Ok? <==> CreateOrganization(old(Rows()), org, owner, plan, validName).Ok?
      ensures r.Err? ==> CreateOrganization(old(Rows()), org, owner, plan, validName) == Err(r.error)
      ensures r.Ok? <==> |OwnedBy(old(Rows()), owner)| < 2 && validName && org !in old(orgs)
      ensures r.Ok? ==> (org, owner) in members && members[(org, owner)] == Owner && org in orgs
    {
      if |OwnedBy(Rows(), owner)| >= MAX_OWNED_ORGS { return Err(OrgLimitReached); }
      if !validName { return Err(InvalidName); }
      if org in orgs { return Err(DuplicateRow); }
      ConsistentStep(Rows(), Event.Create(org, owner, plan, validName));
      Found(org, owner, plan);
      r := Ok(true);
    }

    /** The checks of an invitation, in order. */
    method CheckInvitation(actor: UserId, org: OrgId, address: string, role: Role, id: InvitationId) returns (e: Option<Error>)
      ensures e == Refusal(Rows(), actor, org, address, role, id)
    {
      if (org, actor) !in members { return Some(NotMember); }
      var actorRole := members[(org, actor)];
      if actorRole == Member { return Some(NotAllowed); }
      if actorRole == Admin && role != Member { return Some(NotAllowed); }
      if role == Owner { return Some(NotAllowed); }
      if HasEmail(Rows(), actor, address) { return Some(SelfInvite); }
      if SharedEmail(Rows(), address) { return Some(DuplicateRow); }
      if MemberAddressed(Rows(), org, address) { return Some(AlreadyMember); }
      if InvitationPending(Rows(), org, address) { return Some(AlreadyInvited); }
      if org in accounts && accounts[org].sub.Some? {
        var limit := GetPlanConfig(accounts[org].sub.value.plan).maxMembers;
        if limit.Some? {
          if |MembersOf(Rows(), org)| + |OutstandingFor(Rows(), org)| >= limit.value { return Some(QuotaExceeded); }
        }
      }
      if id in invitations { return Some(DuplicateRow); }
      e := None;
    }

    method Invite(actor: UserId, org: OrgId, email: string, role: Role, id: InvitationId) returns (r: Result<bool, Error>)
      requires Valid()
      modifies this`invitations
      ensures Valid()
      ensures Rows() == Apply(old(Rows()), CreateInvitation(old(Rows()), actor, org, email, role, id))
      ensures r.Ok? <==> CreateInvitation(old(Rows()), actor, org, email, role, id).Ok?
      ensures r.Err? ==> CreateInvitation(old(Rows()), actor, org, email, role, id) == Err(r.error)
      ensures r.Ok? ==>
                && id !in old(invitations)
                && invitations == old(invitations)[id := Invitation(org, Lower(Strip(email)), role, Pending, now + 604_800_000_000)]
    {
      var address := Lower(Strip(email));
      var e := CheckInvitation(actor, org, address, role, id);
      if e.Some? { return Err(e.value); }
      ConsistentStep(Rows(), Event.Invite(actor, org, email, role, id));
      invitations := invitations[id := Invitation(org, address, role, Pending, now + INVITATION_TTL)];
      r := Ok(true);
    }

    /** An expired invitation is marked EXPIRED and then refused, so the mark is rolled back with the request. */
    method Accept(user: UserId, id: InvitationId) returns (r: Result<Role, Error>)
      requires Valid()
      modifies this`members, this`invitations
      ensures Valid()
      ensures Rows() == Apply(old(Rows()), AcceptInvitation(old(Rows()), user, id))
      ensures r.Ok? <==> AcceptInvitation(old(Rows()), user, id).Ok?
      ensures r.Err? ==> AcceptInvitation(old(Rows()), user, id) == Err(r.error)
      ensures r.Ok? <==>
                && id in old(invitations) && user in users && Lower(users[user]) == Lower(old(invitations)[id].email)
                && old(invitations)[id].status == Pending && now <= old(invitations)[id].expiresAt
                && (old(invitations)[id].org, user) !in old(members)
      ensures r.Ok? ==>
                && r.value == old(invitations)[id].role
                && members == old(members)[(old(invitations)[id].org, user) := old(invitations)[id].role]
                && invitations == old(invitations)[id := old(invitations)[id].(status := Accepted)]
    {
      ConsistentStep(Rows(), Event.Accept(user, id));
      if id !in invitations { return Err(NotFound); }
      if user !in users { return Err(NotFound); }
      var i := invitations[id];
      if Lower(users[user]) != Lower(i.email) { return Err(WrongEmail); }
      if i.status != Pending { return Err(AlreadyProcessed); }
      if i.expiresAt < now {
        var before := invitations;
        invitations := invitations[id := i.(status := Expired)];
        invitations := before;
        return Err(HasExpired);
      }
      if (i.org, user) in members { return Err(AlreadyMember); }
      members := members[(i.org, user) := i.role];
      invitations := invitations[id := i.(status := Accepted)];
      r := Ok(i.role);
    }

    method Decline(user: UserId, id: InvitationId) returns (r: Result<bool, Error>)
      requires Valid()
      modifies this`invitations
      ensures Valid()
      ensures Rows() == Apply(old(Rows()), DeclineInvitation(old(Rows()), user, id))
      ensures r.Ok? <==> DeclineInvitation(old(Rows()), user, id).Ok?
      ensures r.Err? ==> DeclineInvitation(old(Rows()), user, id) == Err(r.error)
      ensures r.Ok? <==>
                && id in old(invitations) && user in users && Lower(users[user]) == Lower(old(invitations)[id].email)
                && old(invitations)[id].status == Pending && now <= old(invitations)[id].expiresAt
      ensures r.Ok? ==> invitations == old(invitations)[id := old(invitations)[id].(status := Declined)]
    {
      ConsistentStep(Rows(), Event.Decline(user, id));
      if id !in invitations { return Err(NotFound); }
      if user !in users { return Err(NotFound); }
      var i := invitations[id];
      if Lower(users[user]) != Lower(i.email) { return Err(WrongEmail); }
      if i.status != Pending { return Err(AlreadyProcessed); }
      if i.expiresAt < now {
        var before := invitations;
        invitations := invitations[id := i.(status := Expired)];
        invitations := before;
        return Err(HasExpired);
      }
      invitations := invitations[id := i.(status := Declined)];
      r := Ok(true);
    }

    method Revoke(actor: UserId, org: OrgId, id: InvitationId) returns (r: Result<bool, Error>)
      requires Valid()
      modifies this`invitations
      ensures Valid()
      ensures Rows() == Apply(old(Rows()), RevokeInvitation(old(Rows()), actor, org, id))
      ensures r.Ok? <==> RevokeInvitation(old(Rows()), actor, org, id).Ok?
      ensures r.Err? ==> RevokeInvitation(old(Rows()), actor, org, id) == Err(r.error)
      ensures r.Ok? <==>
                && id in old(invitations) && old(invitations)[id].org == org && old(invitations)[id].status == Pending
                && (org, actor) in members && (members[(org, actor)] == Owner || members[(org, actor)] == Admin)
      ensures r.Ok? ==> invitations == old(invitations)[id := old(invitations)[id].(status := Revoked)]
    {
      ConsistentStep(Rows(), Event.Revoke(actor, org, id));
      if id !in invitations { return Err(NotFound); }
      if invitations[id].org != org { return Err(NotFound); }
      if (org, actor) !in members { return Err(NotMember); }
      if members[(org, actor)] != Owner && members[(org, actor)] != Admin { return Err(NotAllowed); }
      if invitations[id].status != Pending { return Err(AlreadyProcessed); }
      invitations := invitations[id := invitations[id].(status := Revoked)];
      r := Ok(true);
    }

    method ChangeRole(actor: UserId, org: OrgId, target: UserId, role: Role) returns (r: Result<bool, Error>)
      requires Valid()
      modifies this`members
      ensures Valid()
      ensures Rows() == Apply(old(Rows()), UpdateMemberRole(old(Rows()), actor, org, target, role))
      ensures r.Ok? <==> UpdateMemberRole(old(Rows()), actor, org, target, role).Ok?
      ensures r.Err? ==> UpdateMemberRole(old(Rows()), actor, org, target, role) == Err(r.error)
      ensures r.Ok? <==>
                && actor != target
                && (org, actor) in old(members) && old(members)[(org, actor)] == Owner
                && (org, target) in old(members) && old(members)[(org, target)] != Owner
      ensures members == if r.Ok? then old(members)[(org, target) := role] else old(members)
    {
      ConsistentStep(Rows(), Event.ChangeRole(actor, org, target, role));
      if actor == target { return Err(NotAllowed); }
      if (org, actor) !in members { return Err(NotMember); }
      if members[(org, actor)] != Owner { return Err(NotAllowed); }
      if (org, target) !in members { return Err(NotFound); }
      if members[(org, target)] == Owner { return Err(NotAllowed); }
      members := members[(org, target) := role];
      r := Ok(true);
    }

    method Remove(actor: UserId, org: OrgId, target: UserId) returns (r: Result<bool, Error>)
      requires Valid()
      modifies this`members
      ensures Valid()
      ensures Rows() == Apply(old(Rows()), RemoveMember(old(Rows()), actor, org, target))
      ensures r.Ok? <==> RemoveMember(old(Rows()), actor, org, target).Ok?
      ensures r.Err? ==> RemoveMember(old(Rows()), actor, org, target) == Err(r.error)
      ensures r.Ok? <==>
                && (org, actor) in old(members) && (org, target) in old(members)
                && ((old(members)[(org, actor)] == Owner && old(members)[(org, target)] != Owner)
                    || (old(members)[(org, actor)] == Admin && old(members)[(org, target)] == Member))
      ensures members == if r.Ok? then old(members) - {(org, target)} else old(members)
    {
      ConsistentStep(Rows(), Event.Remove(actor, org, target));
      if (org, actor) !in members { return Err(NotMember); }
      if (org, target) !in members { return Err(NotFound); }
      var actorRole, targetRole := members[(org, actor)], members[(org, target)];
      if targetRole == Owner { return Err(NotAllowed); }
      if actorRole == Member { return Err(NotAllowed); }
      if actorRole == Admin && targetRole != Member { return Err(NotAllowed); }
      members := members - {(org, target)};
      r := Ok(true);
    }
  }
}
