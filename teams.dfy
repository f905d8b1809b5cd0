/**
 * `GET /api/teams`: the drivers (only the active ones when `active=true`
 * is asked for) grouped by team with a `reduce` that pushes onto its
 * accumulator: one group per team name in order of first appearance, each
 * listing its drivers in input order.
 */
module Teams {
  import opened Wrappers
  import opened Db

  /** `DriverInfo`: the fields each group entry keeps. */
  datatype DriverInfo = DriverInfo(id: string, number: int, code: string, fullname: string, active: bool)

  datatype Team = Team(name: string, drivers: seq<DriverInfo>)

  datatype Response = Unauthorized | Ok(teams: seq<Team>)

  function InfoOf(d: Driver): DriverInfo {
    DriverInfo(d.id, d.number, d.code, d.fullname, d.active)
  }

  /** `acc.find(t => t.name === driver.team)`, as an index. */
  function FindTeam(acc: seq<Team>, name: string): (r: Option<nat>)
    ensures r.Some? ==> r.value < |acc| && acc[r.value].name == name
    ensures r.None? <==> forall k :: 0 <= k < |acc| ==> acc[k].name != name
  {
    Seqs.FindFirst(acc, (t: Team) => t.name == name)
  }

  /** The reducer: create the team when missing, then push the driver onto it. */
  function Push(acc: seq<Team>, d: Driver): seq<Team> {
    match FindTeam(acc, d.team)
    case None => acc + [Team(d.team, [InfoOf(d)])]
    case Some(k) => acc[k := acc[k].(drivers := acc[k].drivers + [InfoOf(d)])]
  }

  /** The accumulator after reducing over `s`. */
  function Grouped(s: seq<Driver>): seq<Team> {
    if s == [] then [] else Push(Grouped(s[..|s| - 1]), s[|s| - 1])
  }

  /** `drivers.reduce(...)`, with the accumulator updated in place. */
  method GroupByTeam(drivers: seq<Driver>) returns (teams: seq<Team>)
    ensures teams == Grouped(drivers)
  {
    teams := [];
    for i := 0 to |drivers|
      invariant teams == Grouped(drivers[..i])
    {
      var driver := drivers[i];
      ghost var before := teams;
      var team := FindTeam(teams, driver.team);
      if team.None? {
        teams := teams + [Team(driver.team, [])];
        team := Some(|teams| - 1);
      }
      var k := team.value;
      teams := teams[k := teams[k].(drivers := teams[k].drivers + [InfoOf(driver)])];
      if FindTeam(before, driver.team).None? {
        assert k == |before|;
        assert teams[k].drivers == [] + [InfoOf(driver)] == [InfoOf(driver)];
        assert teams == before + [Team(driver.team, [InfoOf(driver)])];
      }
      assert teams == Push(before, driver);
      assert drivers[..i + 1][..i] == drivers[..i];
    }
    assert drivers[..|drivers|] == drivers;
  }

  /** The entries of the drivers of team `name`, in input order. */
  function Members(s: seq<Driver>, name: string): seq<DriverInfo> {
    if s == [] then []
    else Members(s[..|s| - 1], name) + (if s[|s| - 1].team == name then [InfoOf(s[|s| - 1])] else [])
  }

  /** The index of the first driver of team `name`, or `|s|` when there is none. */
  function FirstOf(s: seq<Driver>, name: string): (r: nat)
    ensures r <= |s|
  {
    if s == [] then 0
    else
      var f := FirstOf(s[..|s| - 1], name);
      if f < |s| - 1 then f else if s[|s| - 1].team == name then |s| - 1 else |s|
  }

  /** `FirstOf` finds the first driver of the team, and `|s|` means the team has none. */
  lemma {:induction false} FirstOfSpec(s: seq<Driver>, name: string)
    ensures FirstOf(s, name) < |s| ==>
      s[FirstOf(s, name)].team == name && forall j :: 0 <= j < FirstOf(s, name) ==> s[j].team != name
    ensures FirstOf(s, name) == |s| ==> forall j :: 0 <= j < |s| ==> s[j].team != name
  {
    if s != [] {
      FirstOfSpec(s[..|s| - 1], name);
    }
  }

  /** Total number of entries over all groups. */
  function Count(teams: seq<Team>): nat {
    if teams == [] then 0 else Count(teams[..|teams| - 1]) + |teams[|teams| - 1].drivers|
  }

  /** No two groups share a name. */
  predicate NamesDistinct(teams: seq<Team>) {
    forall a, b :: 0 <= a < b < |teams| ==> teams[a].name != teams[b].name
  }

  /** Every group is named after the team of some driver. */
  predicate NamesSeen(s: seq<Driver>, teams: seq<Team>) {
    forall k :: 0 <= k < |teams| ==> FirstOf(s, teams[k].name) < |s|
  }

  /** Every driver's team has a group. */
  predicate TeamsCovered(s: seq<Driver>, teams: seq<Team>) {
    forall j :: 0 <= j < |s| ==> FindTeam(teams, s[j].team).Some?
  }

  /** Every group lists its team's drivers. */
  predicate MembersListed(s: seq<Driver>, teams: seq<Team>) {
    forall k :: 0 <= k < |teams| ==> teams[k].drivers == Members(s, teams[k].name)
  }

  /** Groups come in the order of their teams' first drivers. */
  predicate FirstAppearance(s: seq<Driver>, teams: seq<Team>) {
    forall a, b :: 0 <= a < b < |teams| ==> FirstOf(s, teams[a].name) < FirstOf(s, teams[b].name)
  }

  /** What the accumulator holds after the drivers `s`. */
  predicate GroupsOf(s: seq<Driver>, teams: seq<Team>) {
    NamesDistinct(teams) && NamesSeen(s, teams) && TeamsCovered(s, teams) &&
    MembersListed(s, teams) && FirstAppearance(s, teams) && Count(teams) == |s|
  }

  lemma MembersAppend(s: seq<Driver>, d: Driver, name: string)
    ensures Members(s + [d], name) == Members(s, name) + (if d.team == name then [InfoOf(d)] else [])
  {
    assert (s + [d])[..|s|] == s;
  }

  lemma {:induction false} MembersNone(s: seq<Driver>, name: string)
    requires FirstOf(s, name) == |s|
    ensures Members(s, name) == []
  {
    if s != [] {
      FirstOfSpec(s, name);
      assert FirstOf(s[..|s| - 1], name) == |s| - 1;
      MembersNone(s[..|s| - 1], name);
    }
  }

  lemma FirstOfAppend(s: seq<Driver>, d: Driver, name: string)
    ensures FirstOf(s, name) < |s| ==> FirstOf(s + [d], name) == FirstOf(s, name)
    ensures FirstOf(s, name) == |s| ==> FirstOf(s + [d], name) == if d.team == name then |s| else |s| + 1
  {
    assert (s + [d])[..|s|] == s;
  }

  lemma {:induction false} CountUpdate(teams: seq<Team>, k: nat, d: DriverInfo)
    requires k < |teams|
    ensures Count(teams[k := teams[k].(drivers := teams[k].drivers + [d])]) == Count(teams) + 1
  {
    var t := teams[k := teams[k].(drivers := teams[k].drivers + [d])];
    if k < |teams| - 1 {
      CountUpdate(teams[..|teams| - 1], k, d);
      assert t[..|t| - 1] == teams[..|teams| - 1][k := teams[k].(drivers := teams[k].drivers + [d])];
    } else {
      assert t[..|t| - 1] == teams[..|teams| - 1];
    }
  }

  lemma CountAppend(teams: seq<Team>, t: Team)
    ensures Count(teams + [t]) == Count(teams) + |t.drivers|
  {
    assert (teams + [t])[..|teams|] == teams;
  }

  /** A team with no group yet has no driver so far. */
  lemma UnseenTeam(s: seq<Driver>, teams: seq<Team>, name: string)
    requires TeamsCovered(s, teams) && FindTeam(teams, name).None?
    ensures FirstOf(s, name) == |s|
  {
    FirstOfSpec(s, name);
    assert forall j :: 0 <= j < |s| ==> s[j].team != name;
  }

  /** The names of a new group's predecessors keep their first drivers. */
  lemma SeenNamesKept(s: seq<Driver>, teams: seq<Team>, d: Driver)
    requires NamesSeen(s, teams)
    ensures forall k :: 0 <= k < |teams| ==> FirstOf(s + [d], teams[k].name) == FirstOf(s, teams[k].name)
  {
    forall k | 0 <= k < |teams| ensures FirstOf(s + [d], teams[k].name) == FirstOf(s, teams[k].name) {
      FirstOfAppend(s, d, teams[k].name);
    }
  }

  /** A driver of a team not seen yet opens a new group at the end: names stay distinct and seen. */
  lemma PushNewNames(s: seq<Driver>, teams: seq<Team>, d: Driver)
    requires NamesDistinct(teams) && NamesSeen(s, teams) && FindTeam(teams, d.team).None?
    ensures NamesDistinct(Push(teams, d)) && NamesSeen(s + [d], Push(teams, d))
  {
    var t' := teams + [Team(d.team, [InfoOf(d)])];
    assert Push(teams, d) == t';
    FirstOfAppend(s, d, d.team);
    SeenNamesKept(s, teams, d);
  }

  /** ... and every driver's team, the new one included, has a group. */
  lemma PushNewCovers(s: seq<Driver>, teams: seq<Team>, d: Driver)
    requires TeamsCovered(s, teams) && FindTeam(teams, d.team).None?
    ensures TeamsCovered(s + [d], Push(teams, d))
  {
    var s', t' := s + [d], teams + [Team(d.team, [InfoOf(d)])];
    assert Push(teams, d) == t';
    forall j | 0 <= j < |s'| ensures FindTeam(t', s'[j].team).Some? {
      if j < |s| {
        var k := FindTeam(teams, s[j].team).value;
        assert t'[k].name == s[j].team;
      } else {
        assert t'[|teams|].name == d.team;
      }
    }
  }

  /** ... the new group holds just the driver, the others are unchanged, one entry more in all. */
  lemma PushNewMembers(s: seq<Driver>, teams: seq<Team>, d: Driver)
    requires TeamsCovered(s, teams) && MembersListed(s, teams) && Count(teams) == |s| && FindTeam(teams, d.team).None?
    ensures MembersListed(s + [d], Push(teams, d)) && Count(Push(teams, d)) == |s| + 1
  {
    var s', t' := s + [d], teams + [Team(d.team, [InfoOf(d)])];
    assert Push(teams, d) == t';
    UnseenTeam(s, teams, d.team);
    MembersNone(s, d.team);
    CountAppend(teams, Team(d.team, [InfoOf(d)]));
    forall k | 0 <= k < |t'| ensures t'[k].drivers == Members(s', t'[k].name) {
      MembersAppend(s, d, t'[k].name);
    }
  }

  /** ... and the new group comes last, as its team's first driver does. */
  lemma PushNewOrder(s: seq<Driver>, teams: seq<Team>, d: Driver)
    requires NamesSeen(s, teams) && TeamsCovered(s, teams) && FirstAppearance(s, teams) && FindTeam(teams, d.team).None?
    ensures FirstAppearance(s + [d], Push(teams, d))
  {
    var t' := teams + [Team(d.team, [InfoOf(d)])];
    assert Push(teams, d) == t';
    UnseenTeam(s, teams, d.team);
    FirstOfAppend(s, d, d.team);
    SeenNamesKept(s, teams, d);
  }

  /** A driver of a known team is pushed onto that team's group: the covering half. */
  lemma PushExistingCovers(s: seq<Driver>, teams: seq<Team>, d: Driver, k: nat)
    requires NamesDistinct(teams) && NamesSeen(s, teams) && TeamsCovered(s, teams) && FindTeam(teams, d.team) == Some(k)
    ensures NamesDistinct(Push(teams, d)) && NamesSeen(s + [d], Push(teams, d)) && TeamsCovered(s + [d], Push(teams, d))
  {
    var s', t' := s + [d], teams[k := teams[k].(drivers := teams[k].drivers + [InfoOf(d)])];
    assert Push(teams, d) == t';
    SeenNamesKept(s, teams, d);
    forall j | 0 <= j < |s'| ensures FindTeam(t', s'[j].team).Some? {
      var i := if j < |s| then FindTeam(teams, s[j].team).value else k;
      assert t'[i].name == s'[j].team;
    }
  }

  /** A driver of a known team is pushed onto that team's group: the contents half. */
  lemma PushExistingLists(s: seq<Driver>, teams: seq<Team>, d: Driver, k: nat)
    requires NamesDistinct(teams) && NamesSeen(s, teams) && MembersListed(s, teams) && FirstAppearance(s, teams)
    requires Count(teams) == |s| && FindTeam(teams, d.team) == Some(k)
    ensures MembersListed(s + [d], Push(teams, d)) && FirstAppearance(s + [d], Push(teams, d))
    ensures Count(Push(teams, d)) == |s| + 1
  {
    var s', t' := s + [d], teams[k := teams[k].(drivers := teams[k].drivers + [InfoOf(d)])];
    assert Push(teams, d) == t';
    CountUpdate(teams, k, InfoOf(d));
    SeenNamesKept(s, teams, d);
    forall j | 0 <= j < |t'| ensures t'[j].drivers == Members(s', t'[j].name) {
      MembersAppend(s, d, t'[j].name);
      if j != k {
        assert teams[j].name != teams[k].name;
      }
    }
  }

  lemma PushStep(s: seq<Driver>, teams: seq<Team>, d: Driver, s': seq<Driver>)
    requires GroupsOf(s, teams) && s' == s + [d]
    ensures GroupsOf(s', Push(teams, d))
  {
    match FindTeam(teams, d.team)
    case None =>
      PushNewNames(s, teams, d);
      PushNewCovers(s, teams, d);
      PushNewMembers(s, teams, d);
      PushNewOrder(s, teams, d);
    case Some(k) =>
      PushExistingCovers(s, teams, d, k);
      PushExistingLists(s, teams, d, k);
  }

  lemma {:induction false} GroupedSummarises(s: seq<Driver>)
    ensures GroupsOf(s, Grouped(s))
  {
    if s != [] {
      var init := s[..|s| - 1];
      GroupedSummarises(init);
      assert init + [s[|s| - 1]] == s;
      PushStep(init, Grouped(init), s[|s| - 1], s);
    }
  }

  /**
   * The grouping: one group per team that has a driver and no two with the
   * same name, in order of each team's first driver; each group lists
   * exactly its team's drivers, projected and in input order; and the
   * groups hold as many entries as there are drivers.
   */
  lemma GroupedCorrect(s: seq<Driver>)
    ensures NamesDistinct(Grouped(s))
    ensures forall k :: 0 <= k < |Grouped(s)| ==> FirstOf(s, Grouped(s)[k].name) < |s|
    ensures forall j :: 0 <= j < |s| ==> FindTeam(Grouped(s), s[j].team).Some?
    ensures forall k :: 0 <= k < |Grouped(s)| ==> Grouped(s)[k].drivers == Members(s, Grouped(s)[k].name)
    ensures forall a, b :: 0 <= a < b < |Grouped(s)| ==>
      FirstOf(s, Grouped(s)[a].name) < FirstOf(s, Grouped(s)[b].name)
    ensures Count(Grouped(s)) == |s|
  {
    GroupedSummarises(s);
  }

  /** Each driver's entry sits in the group of its own team. */
  lemma {:induction false} MemberOfOwnTeam(s: seq<Driver>, j: nat)
    requires j < |s|
    ensures InfoOf(s[j]) in Members(s, s[j].team)
  {
    var init := s[..|s| - 1];
    if j < |s| - 1 {
      MemberOfOwnTeam(init, j);
      assert init[j] == s[j];
    }
  }

  /** `where: activeFilter`: only active drivers when `active=true`. */
  function Filtered(drivers: seq<Driver>, activeOnly: bool): (r: seq<Driver>)
    ensures forall d :: d in r <==> d in drivers && (activeOnly ==> d.active)
    ensures !activeOnly ==> r == drivers
  {
    if drivers == [] then []
    else
      var rest := Filtered(drivers[..|drivers| - 1], activeOnly);
      var d := drivers[|drivers| - 1];
      assert drivers == drivers[..|drivers| - 1] + [d];
      if activeOnly && !d.active then rest else rest + [d]
  }

  /** `GET`: 401 without a signed-in user, otherwise the groups. */
  method Get(signedIn: bool, activeParam: Option<string>, drivers: seq<Driver>) returns (response: Response)
    ensures !signedIn ==> response == Unauthorized
    ensures signedIn ==> response == Ok(Grouped(Filtered(drivers, activeParam == Some("true"))))
    ensures signedIn && drivers == [] ==> response == Ok([])
  {
    if !signedIn {
      return Unauthorized;
    }
    var activeOnly := activeParam == Some("true");
    var teams := GroupByTeam(Filtered(drivers, activeOnly));
    response := Ok(teams);
  }
}
