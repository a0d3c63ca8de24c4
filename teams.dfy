/**
 * artisans/team_management.py: artisans form teams. The creator owns the team and is its first
 * member, with the role "admin"; admins add members, the owner can be neither removed nor
 * leave, and each artisan profile points at one team (its last).
 */
module Teams {

  import opened Basics
  import opened Accounts
  import opened AccessDecorators

  /** An ArtisanTeam row. */
  datatype Team = Team(name: string, description: string, owner: UserId)

  /** An ArtisanProfile row, as far as teams are concerned: its id and its `team` reference. */
  datatype Profile = Profile(id: ArtisanId, team: Option<TeamId>)

  /** The role string a creator is given, and the one `is_admin` looks for. */
  const AdminRole: string := "admin"
  /** `request.POST.get('role', 'member')` when no role is posted. */
  const DefaultMemberRole: string := "member"

  /** The create form's two fields, as posted (before stripping). */
  datatype TeamForm = TeamForm(name: string, description: string)

  /** The add-member form: the email, and the role if one was posted. */
  datatype MemberForm = MemberForm(email: string, role: Option<string>)

  datatype TeamOutcome =
    | Redirected(gate: Gate)
    | ShowForm
    | TeamNotFound
    | NameRequired
    | NoArtisanProfile
    | Created(team: TeamId)
    | NotTeamAdmin
    | EmailRequired
    | UnknownEmail
    | NotAnArtisan
    | AlreadyMember
    | MemberAdded
    | MethodNotAllowed
    | UserNotFound
    | CannotRemoveOwner
    | RemoveFailed
    | MemberRemoved
    | CannotLeaveOwnTeam
    | LeaveFailed
    | LeftTeam

  /**
   * Every team has a member table and an id below the next one, its owner is in that table with
   * the admin role, and every registered address belongs to a user.
   */
  predicate RegistryConsistent(users: set<UserId>, emailOwner: map<string, UserId>, teams: map<TeamId, Team>,
                               members: map<TeamId, map<UserId, string>>, nextTeamId: TeamId)
  {
    && members.Keys == teams.Keys
    && (forall t :: t in teams ==> t < nextTeamId)
    && (forall t :: t in teams ==> teams[t].owner in members[t] && members[t][teams[t].owner] == AdminRole)
    && (forall e :: e in emailOwner ==> emailOwner[e] in users)
  }

  /** A new team under the next id, with its owner as sole admin member, keeps the registry consistent. */
  lemma CreateKeepsConsistent(users: set<UserId>, emailOwner: map<string, UserId>, teams: map<TeamId, Team>,
                              members: map<TeamId, map<UserId, string>>, nextTeamId: TeamId, team: Team)
    requires RegistryConsistent(users, emailOwner, teams, members, nextTeamId)
    ensures nextTeamId !in teams
    ensures RegistryConsistent(users, emailOwner, teams[nextTeamId := team],
      members[nextTeamId := map[team.owner := AdminRole]], nextTeamId + 1)
  {
  }

  /** Giving anyone but the owner a role in an existing team keeps the registry consistent. */
  lemma JoinKeepsConsistent(users: set<UserId>, emailOwner: map<string, UserId>, teams: map<TeamId, Team>,
                            members: map<TeamId, map<UserId, string>>, nextTeamId: TeamId,
                            t: TeamId, m: UserId, role: string)
    requires RegistryConsistent(users, emailOwner, teams, members, nextTeamId)
    requires t in teams && m != teams[t].owner
    ensures var row: map<UserId, string> := members[t][m := role];
      RegistryConsistent(users, emailOwner, teams, members[t := row], nextTeamId)
  {
    assert teams[t].owner in members[t];
  }

  /** Taking anyone but the owner out of a team keeps the registry consistent. */
  lemma DepartKeepsConsistent(users: set<UserId>, emailOwner: map<string, UserId>, teams: map<TeamId, Team>,
                              members: map<TeamId, map<UserId, string>>, nextTeamId: TeamId, t: TeamId, u: UserId)
    requires RegistryConsistent(users, emailOwner, teams, members, nextTeamId)
    requires t in teams && u != teams[t].owner
    ensures var row: map<UserId, string> := members[t] - {u};
      RegistryConsistent(users, emailOwner, teams, members[t := row], nextTeamId)
  {
    assert teams[t].owner in members[t];
  }

  class TeamRegistry {
    var users: set<UserId>
    /** `User.objects.get(email=...)`: the user holding each registered address. */
    var emailOwner: map<string, UserId>
    /** The ArtisanProfile of each user that has one. */
    var profiles: map<UserId, Profile>
    var teams: map<TeamId, Team>
    /** Each team's members, with their role (the ArtisanTeamMember rows). */
    var members: map<TeamId, map<UserId, string>>
    /** The next primary key the teams table hands out. */
    var nextTeamId: TeamId

    predicate Valid()
      reads this
    {
      RegistryConsistent(users, emailOwner, teams, members, nextTeamId)
    }

    constructor ()
      ensures Valid()
      ensures users == {} && emailOwner == map[] && profiles == map[] && teams == map[] && members == map[]
      ensures nextTeamId == 0
    {
      users := {};
      emailOwner := map[];
      profiles := map[];
      teams := map[];
      members := map[];
      nextTeamId := 0;
    }

    /** `is_admin` in the member views: the owner, or a member whose role is "admin". */
    predicate IsTeamAdmin(t: TeamId, u: UserId)
      reads this
      requires t in teams && t in members
    {
      teams[t].owner == u || (u in members[t] && members[t][u] == AdminRole)
    }

    /**
     * `create_team_view`. The name must be non-blank after stripping. The team, the creator's
     * profile update and the admin membership are one atomic block: a creator without an
     * artisan profile rolls all of it back.
     */
    method CreateTeam(req: Requester, post: Option<TeamForm>) returns (outcome: TeamOutcome)
      requires Valid()
      modifies this
      ensures Valid()
      ensures outcome == (
        if ArtisanRequired(req) != Admit then Redirected(ArtisanRequired(req))
        else if post.None? then ShowForm
        else if Strip(post.value.name) == [] then NameRequired
        else if req.user.id !in old(profiles) then NoArtisanProfile
        else Created(old(nextTeamId)))
      ensures outcome.Created? ==>
        var u, t := req.user.id, outcome.team;
        && t !in old(teams)
        && teams == old(teams)[t := Team(Strip(post.value.name), Strip(post.value.description), u)]
        && members == old(members)[t := map[u := AdminRole]]
        && profiles == old(profiles)[u := old(profiles)[u].(team := Some(t))]
      ensures !outcome.Created? ==> teams == old(teams) && members == old(members) && profiles == old(profiles)
      ensures nextTeamId == if outcome.Created? then old(nextTeamId) + 1 else old(nextTeamId)
      ensures users == old(users) && emailOwner == old(emailOwner)
    {
      var g := ArtisanRequired(req);
      if g != Admit {
        return Redirected(g);
      }
      if post.None? {
        return ShowForm;
      }
      var name := Strip(post.value.name);
      var description := Strip(post.value.description);
      if name == [] {
        return NameRequired;
      }
      var u := req.user.id;
      if u !in profiles {
        return NoArtisanProfile;
      }
      var t := nextTeamId;
      CreateKeepsConsistent(users, emailOwner, teams, members, t, Team(name, description, u));
      nextTeamId := nextTeamId + 1;
      teams := teams[t := Team(name, description, u)];
      profiles := profiles[u := profiles[u].(team := Some(t))];
      members := members[t := map[u := AdminRole]];
      outcome := Created(t);
    }

    /**
     * Which way `add_team_member_view` goes, before anything is written: the artisan check, the
     * team, the admin check, then a non-blank email of a user with an artisan profile who is not
     * yet a member.
     */
    function AddMemberCheck(req: Requester, t: TeamId, post: Option<MemberForm>): TeamOutcome
      reads this
      requires Valid()
    {
      if ArtisanRequired(req) != Admit then Redirected(ArtisanRequired(req))
      else if t !in teams then TeamNotFound
      else if !IsTeamAdmin(t, req.user.id) then NotTeamAdmin
      else if post.None? then ShowForm
      else if Strip(post.value.email) == [] then EmailRequired
      else if Strip(post.value.email) !in emailOwner then UnknownEmail
      else if emailOwner[Strip(post.value.email)] !in profiles then NotAnArtisan
      else if emailOwner[Strip(post.value.email)] in members[t] then AlreadyMember
      else MemberAdded
    }

    /** `add_team_member_view`: the checks, then the membership row and the profile's team. */
    method AddMember(req: Requester, t: TeamId, post: Option<MemberForm>) returns (outcome: TeamOutcome)
      requires Valid()
      modifies this
      ensures Valid()
      ensures outcome == old(AddMemberCheck(req, t, post))
      ensures outcome == MemberAdded ==>
        var m := old(emailOwner)[Strip(post.value.email)];
        var role := if post.value.role.Some? then post.value.role.value else DefaultMemberRole;
        && m in old(profiles) && m !in old(members)[t]
        && members == old(members)[t := old(members)[t][m := role]]
        && profiles == old(profiles)[m := old(profiles)[m].(team := Some(t))]
      ensures outcome != MemberAdded ==> members == old(members) && profiles == old(profiles)
      ensures teams == old(teams) && users == old(users) && emailOwner == old(emailOwner)
      ensures nextTeamId == old(nextTeamId)
    {
      outcome := AddMemberCheck(req, t, post);
      if outcome == MemberAdded {
        var m := emailOwner[Strip(post.value.email)];
        var role := if post.value.role.Some? then post.value.role.value else DefaultMemberRole;
        assert teams[t].owner in members[t];
        JoinKeepsConsistent(users, emailOwner, teams, members, nextTeamId, t, m, role);
        members := members[t := members[t][m := role]];
        profiles := profiles[m := profiles[m].(team := Some(t))];
      }
    }

    /**
     * `remove_team_member_view`. A team admin removes any member but the owner; the removal and
     * the profile's `team = None` are atomic, so a member without a profile is left in place.
     * The profile's team is cleared even when it points at another team. Only a POST gets past
     * the method check, which runs after the artisan gate.
     */
    method RemoveMember(req: Requester, isPost: bool, t: TeamId, member: UserId) returns (outcome: TeamOutcome)
      requires Valid()
      modifies this
      ensures Valid()
      ensures outcome == (
        if ArtisanRequired(req) != Admit then Redirected(ArtisanRequired(req))
        else if !isPost then MethodNotAllowed
        else if t !in old(teams) then TeamNotFound
        else if !old(IsTeamAdmin(t, req.user.id)) then NotTeamAdmin
        else if member !in old(users) then UserNotFound
        else if member == old(teams)[t].owner then CannotRemoveOwner
        else if member !in old(profiles) then RemoveFailed
        else MemberRemoved)
      ensures outcome == MemberRemoved ==>
        && members == old(members)[t := old(members)[t] - {member}]
        && profiles == old(profiles)[member := old(profiles)[member].(team := None)]
      ensures outcome != MemberRemoved ==> members == old(members) && profiles == old(profiles)
      ensures teams == old(teams) && users == old(users) && emailOwner == old(emailOwner)
      ensures nextTeamId == old(nextTeamId)
    {
      var g := ArtisanRequired(req);
      if g != Admit {
        return Redirected(g);
      }
      if !isPost {
        return MethodNotAllowed;
      }
      if t !in teams {
        return TeamNotFound;
      }
      if !IsTeamAdmin(t, req.user.id) {
        return NotTeamAdmin;
      }
      if member !in users {
        return UserNotFound;
      }
      if member == teams[t].owner {
        return CannotRemoveOwner;
      }
      if member !in profiles {
        return RemoveFailed;
      }
      DepartKeepsConsistent(users, emailOwner, teams, members, nextTeamId, t, member);
      members := members[t := members[t] - {member}];
      profiles := profiles[member := profiles[member].(team := None)];
      outcome := MemberRemoved;
    }

    /**
     * `leave_team_view`. Anyone but the owner may leave; membership is not checked first. As
     * with removal, the profile's team is cleared whatever team it pointed at, and only a POST
     * gets past the method check.
     */
    method LeaveTeam(req: Requester, isPost: bool, t: TeamId) returns (outcome: TeamOutcome)
      requires Valid()
      modifies this
      ensures Valid()
      ensures outcome == (
        if ArtisanRequired(req) != Admit then Redirected(ArtisanRequired(req))
        else if !isPost then MethodNotAllowed
        else if t !in old(teams) then TeamNotFound
        else if req.user.id == old(teams)[t].owner then CannotLeaveOwnTeam
        else if req.user.id !in old(profiles) then LeaveFailed
        else LeftTeam)
      ensures outcome == LeftTeam ==>
        var u := req.user.id;
        && members == old(members)[t := old(members)[t] - {u}]
        && profiles == old(profiles)[u := old(profiles)[u].(team := None)]
      ensures outcome != LeftTeam ==> members == old(members) && profiles == old(profiles)
      ensures teams == old(teams) && users == old(users) && emailOwner == old(emailOwner)
      ensures nextTeamId == old(nextTeamId)
    {
      var g := ArtisanRequired(req);
      if g != Admit {
        return Redirected(g);
      }
      if !isPost {
        return MethodNotAllowed;
      }
      if t !in teams {
        return TeamNotFound;
      }
      var u := req.user.id;
      if u == teams[t].owner {
        return CannotLeaveOwnTeam;
      }
      if u !in profiles {
        return LeaveFailed;
      }
      DepartKeepsConsistent(users, emailOwner, teams, members, nextTeamId, t, u);
      members := members[t := members[t] - {u}];
      profiles := profiles[u := profiles[u].(team := None)];
      outcome := LeftTeam;
    }
  }

  /**
   * In a valid registry the owner of a team is a member of it with the admin role, so the owner
   * test of `is_admin` adds nothing: a user is team admin exactly when their membership has the
   * admin role.
   */
  lemma OwnerIsTeamAdmin(r: TeamRegistry, t: TeamId)
    requires r.Valid() && t in r.teams
    ensures r.IsTeamAdmin(t, r.teams[t].owner)
    ensures r.teams[t].owner in r.members[t] && r.members[t][r.teams[t].owner] == AdminRole
    ensures forall u :: r.IsTeamAdmin(t, u) <==> u in r.members[t] && r.members[t][u] == AdminRole
  {
  }
}
