/**
 * The team context: the teams the signed-in user belongs to, the default
 * selection, and provisioning of one personal ("ramblings") channel per team
 * member. The store's queries are parameters: their results are the inputs
 * of these functions and the insert is their output.
 */
module TeamContext {
  import opened Wrappers

  type UserId = string
  type TeamId = string

  datatype Team = Team(id: TeamId, name: string, description: string, createdAt: int)

  /** A `team_members` row of the signed-in user, joined with its team. */
  datatype Membership = Membership(teamId: TeamId, role: string, team: Team)

  /** A team as listed for the user: the team's columns plus the user's role. */
  datatype UserTeam = UserTeam(team: Team, userRole: string)

  datatype Profile = Profile(id: UserId, username: string, fullName: string, avatarUrl: string)

  /** A `team_members` row of the selected team; its joined profile may be missing. */
  datatype Member = Member(userId: UserId, role: string, joinedAt: int, profile: Option<Profile>)

  /** A channel row, as fetched or as proposed for insertion. */
  datatype Channel = Channel(
    teamId: TeamId, name: string, kind: string, ownerId: Option<UserId>, isMutedByDefault: bool)

  const RamblingsKind: string := "ramblings"
  const RamblingsSuffix: string := "'s Ramblings"

  /** The context's state apart from the loaded members and channels. */
  datatype TeamState = TeamState(teams: seq<UserTeam>, selected: Option<UserTeam>, loading: bool)

  /** List each membership's team tagged with the user's role; a null result lists nothing. */
  function FlattenMemberships(data: Option<seq<Membership>>): (r: seq<UserTeam>)
    ensures data.None? ==> r == []
    ensures data.Some? ==> |r| == |data.value|
    ensures data.Some? ==> forall i :: 0 <= i < |r| ==>
      r[i].team == data.value[i].team && r[i].userRole == data.value[i].role
  {
    match data
    case None => []
    case Some(ms) => seq(|ms|, i requires 0 <= i < |ms| => UserTeam(ms[i].team, ms[i].role))
  }

  /**
   * Store the fetched teams; when nothing is selected yet, select the first
   * one. Loading is over afterwards whatever was fetched.
   */
  function FetchUserTeams(s: TeamState, data: Option<seq<Membership>>): (r: TeamState)
    ensures r.teams == FlattenMemberships(data)
    ensures !r.loading
    ensures s.selected.None? && r.teams != [] ==> r.selected == Some(r.teams[0])
    ensures s.selected.Some? || r.teams == [] ==> r.selected == s.selected
  {
    var teams := FlattenMemberships(data);
    var selected := if |teams| > 0 && s.selected.None? then Some(teams[0]) else s.selected;
    TeamState(teams, selected, false)
  }

  /**
   * Refetching the same memberships changes nothing more, and once some team
   * is listed, some team is selected.
   */
  lemma FetchUserTeamsSettles(s: TeamState, data: Option<seq<Membership>>)
    ensures FetchUserTeams(FetchUserTeams(s, data), data) == FetchUserTeams(s, data)
    ensures FetchUserTeams(s, data).teams != [] ==> FetchUserTeams(s, data).selected.Some?
  {
  }

  /** `ch` is a ramblings channel owned by `user`. */
  predicate OwnsRamblings(ch: Channel, user: UserId) {
    ch.ownerId == Some(user) && ch.kind == RamblingsKind
  }

  /** Some channel of `channels` is a ramblings channel owned by `user`. */
  predicate HasRamblings(channels: seq<Channel>, user: UserId) {
    exists i :: 0 <= i < |channels| && OwnsRamblings(channels[i], user)
  }

  /** `c` sits in `channels` before every other ramblings channel owned by `user`. */
  predicate IsFirstRamblings(channels: seq<Channel>, user: UserId, c: Channel) {
    exists i :: 0 <= i < |channels| && channels[i] == c &&
      forall j :: 0 <= j < i ==> !OwnsRamblings(channels[j], user)
  }

  /** `channels.find(...)`: the first ramblings channel owned by `user`. */
  function FindRamblings(channels: seq<Channel>, user: UserId): (r: Option<Channel>)
    ensures r.Some? <==> HasRamblings(channels, user)
    ensures r.Some? ==> r.value in channels && OwnsRamblings(r.value, user)
    ensures r.Some? ==> IsFirstRamblings(channels, user, r.value)
  {
    if channels == [] then None
    else if OwnsRamblings(channels[0], user) then Some(channels[0])
    else
      var r := FindRamblings(channels[1..], user);
      assert HasRamblings(channels, user) ==> HasRamblings(channels[1..], user) by {
        if HasRamblings(channels, user) {
          var i :| 0 <= i < |channels| && OwnsRamblings(channels[i], user);
          assert channels[1..][i - 1] == channels[i];
        }
      }
      assert HasRamblings(channels[1..], user) ==> HasRamblings(channels, user) by {
        if HasRamblings(channels[1..], user) {
          var i :| 0 <= i < |channels[1..]| && OwnsRamblings(channels[1..][i], user);
          assert channels[i + 1] == channels[1..][i];
        }
      }
      FirstMatchShifts(channels, user, r);
      r
  }

  /** A first match in the tail is a first match in the whole list when the head does not match. */
  lemma FirstMatchShifts(channels: seq<Channel>, user: UserId, r: Option<Channel>)
    requires |channels| > 0 && !OwnsRamblings(channels[0], user)
    requires r.Some? ==> IsFirstRamblings(channels[1..], user, r.value)
    ensures r.Some? ==> IsFirstRamblings(channels, user, r.value)
  {
    if r.Some? {
      var i :| 0 <= i < |channels[1..]| && channels[1..][i] == r.value &&
        forall j :: 0 <= j < i ==> !OwnsRamblings(channels[1..][j], user);
      assert channels[i + 1] == r.value;
      forall j | 0 <= j < i + 1
        ensures !OwnsRamblings(channels[j], user)
      {
        if j > 0 {
          assert channels[j] == channels[1..][j - 1];
        }
      }
    }
  }

  /** The members of the team that own no ramblings channel yet, in member order. */
  function Unprovisioned(members: seq<Member>, channels: seq<Channel>): (r: seq<Member>)
    ensures |r| <= |members|
    ensures forall m :: m in r <==> m in members && !HasRamblings(channels, m.userId)
    ensures |members| == 1 ==> r == (if HasRamblings(channels, members[0].userId) then [] else members)
  {
    if members == [] then []
    else
      var rest := Unprovisioned(members[1..], channels);
      assert forall m :: m in members <==> m == members[0] || m in members[1..];
      if FindRamblings(channels, members[0].userId).None? then [members[0]] + rest else rest
  }

  /**
   * Filtering distributes over concatenation; with the one-member case above
   * this fixes the result: the kept members in their original order, repeats
   * included.
   */
  lemma {:induction false} UnprovisionedAppend(a: seq<Member>, b: seq<Member>, channels: seq<Channel>)
    ensures Unprovisioned(a + b, channels) == Unprovisioned(a, channels) + Unprovisioned(b, channels)
  {
    if a != [] {
      assert (a + b)[0] == a[0];
      assert (a + b)[1..] == a[1..] + b;
      UnprovisionedAppend(a[1..], b, channels);
    } else {
      assert a + b == b;
    }
  }

  /** The channel proposed for one member; fails when the member has no profile. */
  function ProposeChannel(team: TeamId, m: Member): (r: Option<Channel>)
    ensures r.Some? <==> m.profile.Some?
    ensures r.Some? ==> r.value == Channel(
      team, m.profile.value.username + RamblingsSuffix, RamblingsKind, Some(m.userId), true)
  {
    match m.profile
    case None => None
    case Some(p) => Some(Channel(team, p.username + RamblingsSuffix, RamblingsKind, Some(m.userId), true))
  }

  /**
   * Propose a ramblings channel for each member, in order. Reading the
   * username of a member without a profile throws, so one such member
   * makes the whole batch fail.
   */
  function ProposeAll(team: TeamId, ms: seq<Member>): (r: Option<seq<Channel>>)
    ensures r.Some? <==> forall i :: 0 <= i < |ms| ==> ms[i].profile.Some?
    ensures r.Some? ==> |r.value| == |ms|
    ensures r.Some? ==> forall i :: 0 <= i < |ms| ==>
      && r.value[i].teamId == team
      && r.value[i].kind == RamblingsKind
      && r.value[i].ownerId == Some(ms[i].userId)
      && r.value[i].isMutedByDefault
      && r.value[i].name == ms[i].profile.value.username + RamblingsSuffix
  {
    if ms == [] then Some([])
    else
      match ProposeChannel(team, ms[0])
      case None => None
      case Some(ch) =>
        match ProposeAll(team, ms[1..])
        case None => None
        case Some(rest) => Some([ch] + rest)
  }

  /** What one provisioning run does. */
  datatype Provisioning =
    | Skipped                          // no team selected or no members loaded
    | NothingMissing                   // every member already owns a ramblings channel
    | Insert(channels: seq<Channel>)   // these rows are inserted, then channels refetched
    | Failed                           // the proposal threw; the error is logged only

  /**
   * One run of ramblings-channel provisioning for the selected team, given the
   * members and channels loaded so far.
   */
  function CreateRamblingsChannels(
    selected: Option<UserTeam>, members: seq<Member>, channels: seq<Channel>): (r: Provisioning)
    ensures selected.None? || members == [] <==> r.Skipped?
    ensures r.NothingMissing? <==>
      selected.Some? && members != [] && forall m :: m in members ==> HasRamblings(channels, m.userId)
    ensures r.Failed? <==>
      selected.Some? && members != [] && exists m :: m in Unprovisioned(members, channels) && m.profile.None?
    ensures r.Insert? ==> r.channels != []
    ensures r.Insert? ==> |r.channels| == |Unprovisioned(members, channels)|
    ensures r.Insert? ==> forall i :: 0 <= i < |r.channels| ==>
      && r.channels[i].teamId == selected.value.team.id
      && r.channels[i].kind == RamblingsKind
      && r.channels[i].isMutedByDefault
      && r.channels[i].ownerId == Some(Unprovisioned(members, channels)[i].userId)
      && r.channels[i].name == Unprovisioned(members, channels)[i].profile.value.username + RamblingsSuffix
  {
    if selected.None? || members == [] then Skipped
    else
      var us := Unprovisioned(members, channels);
      assert us == [] <==> forall m :: m in members ==> HasRamblings(channels, m.userId) by {
        if us != [] {
          assert us[0] in us;
        }
      }
      assert (exists m :: m in us && m.profile.None?) <==> !(forall i :: 0 <= i < |us| ==> us[i].profile.Some?) by {
        if exists m :: m in us && m.profile.None? {
          var m :| m in us && m.profile.None?;
          var i :| 0 <= i < |us| && us[i] == m;
        }
      }
      match ProposeAll(selected.value.team.id, us)
      case None => Failed
      case Some(ps) => if |ps| > 0 then Insert(ps) else NothingMissing
  }

  /**
   * A run sees only the channels passed to it. With none loaded yet, a member
   * with a profile gets a channel proposed, whatever the store already holds.
   */
  lemma EmptyChannelListInserts(t: UserTeam, m: Member)
    requires m.profile.Some?
    ensures CreateRamblingsChannels(Some(t), [m], []) == Insert([Channel(
      t.team.id, m.profile.value.username + RamblingsSuffix, RamblingsKind, Some(m.userId), true)])
  {
    assert !HasRamblings([], m.userId);
  }

  /**
   * The ownership test ignores the channel's team: a member's ramblings
   * channel in another team counts as theirs in this one.
   */
  lemma OtherTeamChannelCounts(t: UserTeam, m: Member, other: Channel)
    requires other.teamId != t.team.id && OwnsRamblings(other, m.userId)
    ensures CreateRamblingsChannels(Some(t), [m], [other]).NothingMissing?
  {
    assert OwnsRamblings([other][0], m.userId);
  }

  /** No two members share a user id. */
  predicate DistinctMembers(ms: seq<Member>) {
    forall i, j :: 0 <= i < j < |ms| ==> ms[i].userId != ms[j].userId
  }

  /** No two channels share an owner. */
  predicate DistinctOwners(chs: seq<Channel>) {
    forall i, j :: 0 <= i < j < |chs| ==> chs[i].ownerId != chs[j].ownerId
  }

  /** `user` is the user id of some member of `ms`. */
  predicate IsMember(ms: seq<Member>, user: UserId) {
    exists i :: 0 <= i < |ms| && ms[i].userId == user
  }

  /** Filtering keeps distinct user ids distinct. */
  lemma {:induction false} UnprovisionedDistinct(members: seq<Member>, channels: seq<Channel>)
    requires DistinctMembers(members)
    ensures DistinctMembers(Unprovisioned(members, channels))
  {
    if members != [] {
      var rest := Unprovisioned(members[1..], channels);
      UnprovisionedDistinct(members[1..], channels);
      forall m | m in rest
        ensures m.userId != members[0].userId
      {
        var k :| 0 <= k < |members[1..]| && members[1..][k] == m;
        assert members[k + 1] == m;
      }
      if FindRamblings(channels, members[0].userId).None? {
        var r := [members[0]] + rest;
        forall i, j | 0 <= i < j < |r|
          ensures r[i].userId != r[j].userId
        {
          if i == 0 {
            assert r[j] == rest[j - 1];
            assert r[j] in rest;
          } else {
            assert r[i] == rest[i - 1] && r[j] == rest[j - 1];
          }
        }
      }
    }
  }

  /** A ramblings channel of `user` is among the proposals iff `user` is a proposed member. */
  lemma {:induction false} ProposalOwners(team: TeamId, ms: seq<Member>, ps: seq<Channel>, user: UserId)
    requires ProposeAll(team, ms) == Some(ps)
    ensures HasRamblings(ps, user) <==> IsMember(ms, user)
  {
    if HasRamblings(ps, user) {
      var i :| 0 <= i < |ps| && OwnsRamblings(ps[i], user);
      assert ms[i].userId == user;
    }
    if IsMember(ms, user) {
      var i :| 0 <= i < |ms| && ms[i].userId == user;
      assert OwnsRamblings(ps[i], user);
    }
  }

  /** Distinct members get proposals with distinct owners. */
  lemma ProposalsDistinct(team: TeamId, ms: seq<Member>, ps: seq<Channel>)
    requires ProposeAll(team, ms) == Some(ps)
    requires DistinctMembers(ms)
    ensures DistinctOwners(ps)
  {
  }

  /** A channel made of two lists has a ramblings channel for `user` iff one of them has. */
  lemma HasRamblingsAppend(a: seq<Channel>, b: seq<Channel>, user: UserId)
    ensures HasRamblings(a + b, user) <==> HasRamblings(a, user) || HasRamblings(b, user)
  {
    if HasRamblings(a + b, user) {
      var i :| 0 <= i < |a + b| && OwnsRamblings((a + b)[i], user);
      if i >= |a| {
        assert (a + b)[i] == b[i - |a|];
      }
    }
    if HasRamblings(a, user) {
      var i :| 0 <= i < |a| && OwnsRamblings(a[i], user);
      assert (a + b)[i] == a[i];
    }
    if HasRamblings(b, user) {
      var i :| 0 <= i < |b| && OwnsRamblings(b[i], user);
      assert (a + b)[|a| + i] == b[i];
    }
  }

  /**
   * Provisioning proposes a channel for a user exactly when the user is a
   * member and none of the loaded channels is that user's ramblings channel.
   */
  lemma {:induction false} ProvisioningTargets(
    selected: Option<UserTeam>, members: seq<Member>, channels: seq<Channel>, u: UserId)
    requires CreateRamblingsChannels(selected, members, channels).Insert?
    ensures HasRamblings(CreateRamblingsChannels(selected, members, channels).channels, u)
      <==> IsMember(members, u) && !HasRamblings(channels, u)
  {
    var ps := CreateRamblingsChannels(selected, members, channels).channels;
    var us := Unprovisioned(members, channels);
    assert ProposeAll(selected.value.team.id, us) == Some(ps);
    ProposalOwners(selected.value.team.id, us, ps, u);
    if IsMember(us, u) {
      var i :| 0 <= i < |us| && us[i].userId == u;
      assert us[i] in us;
      var j :| 0 <= j < |members| && members[j] == us[i];
    }
    if IsMember(members, u) && !HasRamblings(channels, u) {
      var j :| 0 <= j < |members| && members[j].userId == u;
      assert members[j] in members;
      var i :| 0 <= i < |us| && us[i] == members[j];
    }
  }

  /** With distinct member ids, no member gets two proposals in one run. */
  lemma ProvisioningNoDuplicates(
    selected: Option<UserTeam>, members: seq<Member>, channels: seq<Channel>, i: nat, j: nat)
    requires CreateRamblingsChannels(selected, members, channels).Insert?
    requires DistinctMembers(members)
    requires i < j < |CreateRamblingsChannels(selected, members, channels).channels|
    ensures CreateRamblingsChannels(selected, members, channels).channels[i].ownerId
      != CreateRamblingsChannels(selected, members, channels).channels[j].ownerId
  {
    var ps := CreateRamblingsChannels(selected, members, channels).channels;
    var us := Unprovisioned(members, channels);
    UnprovisionedDistinct(members, channels);
    ProposalsDistinct(selected.value.team.id, us, ps);
  }

  /**
   * After an insert, every member owns a ramblings channel among the loaded
   * channels followed by the inserted ones.
   */
  lemma ProvisioningCovers(
    selected: Option<UserTeam>, members: seq<Member>, channels: seq<Channel>, u: UserId)
    requires CreateRamblingsChannels(selected, members, channels).Insert?
    requires IsMember(members, u)
    ensures HasRamblings(channels + CreateRamblingsChannels(selected, members, channels).channels, u)
  {
    var r := CreateRamblingsChannels(selected, members, channels);
    ProvisioningTargets(selected, members, channels, u);
    HasRamblingsAppend(channels, r.channels, u);
  }

  /** When a run finds nothing missing, every member already owns a ramblings channel. */
  lemma NothingMissingCovers(
    selected: Option<UserTeam>, members: seq<Member>, channels: seq<Channel>, u: UserId)
    requires CreateRamblingsChannels(selected, members, channels).NothingMissing?
    requires IsMember(members, u)
    ensures HasRamblings(channels, u)
  {
    var us := Unprovisioned(members, channels);
    assert us == [] by {
      assert |ProposeAll(selected.value.team.id, us).value| == 0;
    }
    var j :| 0 <= j < |members| && members[j].userId == u;
    assert members[j] in members;
    assert members[j] !in us;
  }
}
