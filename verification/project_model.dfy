/** Projects and their members. A member's permission is one of five
    ordered levels, a lower number granting more: each level can do
    everything the levels above it in number can. */
module Projects {
  import opened Wrappers
  import opened JsValue
  import opened Seqs
  import opened Users
  import opened Sessions

  datatype Permission = Owner | Admin | Manage | Edit | View

  /** The enum's integer value. */
  function Level(p: Permission): (n: int)
    ensures 0 <= n <= 4
  {
    match p
    case Owner => 0
    case Admin => 1
    case Manage => 2
    case Edit => 3
    case View => 4
  }

  /** `ProjectPermission(n)`: the member whose value is `n`, if any. */
  function PermissionOf(n: int): (r: Option<Permission>)
    ensures r.Some? <==> 0 <= n <= 4
    ensures r.Some? ==> Level(r.value) == n
  {
    if n == 0 then Some(Owner)
    else if n == 1 then Some(Admin)
    else if n == 2 then Some(Manage)
    else if n == 3 then Some(Edit)
    else if n == 4 then Some(View)
    else None
  }

  /** The levels are distinct, so a permission and its value convert both ways. */
  lemma PermissionRoundTrip(p: Permission)
    ensures PermissionOf(Level(p)) == Some(p)
  {
  }

  /** How a member joined; serialised as `owner`, `direct` and `invite`. */
  datatype Grant = OwnerGrant | Direct | Invite

  function GrantValue(g: Grant): string
  {
    match g
    case OwnerGrant => "owner"
    case Direct => "direct"
    case Invite => "invite"
  }

  /** Reading a grant back from its serialised text. */
  function ParseGrant(s: string): (r: Option<Grant>)
    ensures r.Some? ==> GrantValue(r.value) == s
    ensures r.None? <==> s !in {"owner", "direct", "invite"}
  {
    if s == "owner" then Some(OwnerGrant)
    else if s == "direct" then Some(Direct)
    else if s == "invite" then Some(Invite)
    else None
  }

  lemma GrantRoundTrip(g: Grant)
    ensures ParseGrant(GrantValue(g)) == Some(g)
  {
  }

  datatype Member = Member(userId: string, permission: Permission, grant: Grant, inviteId: Option<string>)

  /** A member given only a user id: view access, added directly, no invite. */
  function NewMember(userId: string): (m: Member)
    ensures m.userId == userId && m.permission == View && m.grant == Direct && m.inviteId.None?
  {
    Member(userId, View, Direct, None)
  }

  /** `has_permission`: the member's level is at most the one asked for. */
  predicate HasPermission(m: Member, level: int)
  {
    Level(m.permission) <= level
  }

  /** Having a level implies having every weaker (higher-numbered) one. */
  lemma PermissionMonotone(m: Member, p: int, q: int)
    requires HasPermission(m, p) && p <= q
    ensures HasPermission(m, q)
  {
  }

  /** An owner has every permission. */
  lemma OwnerHasAll(m: Member, p: Permission)
    requires m.permission == Owner
    ensures HasPermission(m, Level(p))
  {
  }

  /** A viewer has only the view permission. */
  lemma ViewerHasOnlyView(m: Member, p: Permission)
    requires m.permission == View
    ensures HasPermission(m, Level(p)) <==> p == View
  {
  }

  /** A new member can view and nothing more. */
  lemma NewMemberOnlyViews(userId: string, p: Permission)
    ensures HasPermission(NewMember(userId), Level(p)) <==> p == View
  {
    ViewerHasOnlyView(NewMember(userId), p);
  }

  datatype ProjectConnection = ProjectConnection(connectionId: string, location: Value)

  datatype Project = Project(
    id: string,
    name: string,
    summary: Option<string>,
    image: Option<string>,
    connection: Option<ProjectConnection>,
    members: seq<Member>)

  /** Whether `userId` is the user id of some member. */
  predicate IsMember(p: Project, userId: string)
  {
    exists i :: 0 <= i < |p.members| && p.members[i].userId == userId
  }

  function IsOwner(m: Member): bool
  {
    HasPermission(m, Level(Owner))
  }

  /** The first member, in list order, with owner permission. */
  function OwnerMember(p: Project): (r: Option<Member>)
    ensures r.None? <==> forall i :: 0 <= i < |p.members| ==> p.members[i].permission != Owner
    ensures r.Some? ==>
              exists i :: 0 <= i < |p.members| && p.members[i] == r.value && r.value.permission == Owner &&
                forall j :: 0 <= j < i ==> p.members[j].permission != Owner
  {
    var owners := Filter(p.members, IsOwner);
    if |owners| > 0 then
      FilterHead(p.members, IsOwner);
      Some(owners[0])
    else
      assert forall i :: 0 <= i < |p.members| ==> p.members[i] in p.members;
      None
  }

  /** `Project.owner`: the user record of the first owner member, if both exist. */
  function ProjectOwner(p: Project, users: seq<User>): (r: Option<User>)
    ensures r.Some? ==> OwnerMember(p).Some? && r.value in users && r.value.id == OwnerMember(p).value.userId
    ensures r.None? <==>
              OwnerMember(p).None? || forall i :: 0 <= i < |users| ==> users[i].id != OwnerMember(p).value.userId
  {
    match OwnerMember(p)
    case None => None
    case Some(m) => UserById(users, m.userId)
  }
}
