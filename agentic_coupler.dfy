/** The coupler: a registry of team members and the routing of one user
    request to them. The two language-model calls are parameters:
    `extract` splits a raw request into sub-requests, and `classify` maps
    the registry's prompt fragment and one sub-request to a team member. */
module Coupling {
  import opened TeamMembers

  /** The id the classifier answers when no registered member matches. */
  const UnknownTeamMember: string := "UNKNOWN"

  /** The two errors `__call__` raises (both as `ValueError` in the source). */
  datatype CouplerError = NoTeamMembers | NoUserRequests

  datatype Result<+T> = Ok(value: T) | Err(error: CouplerError)

  /** The splitter: a raw request to its sub-requests, in order. */
  type Extractor = string -> seq<string>

  /** The classifier: the registry's prompt fragment and one sub-request to
      the team member the model picks for it. */
  type Classifier = (string, string) -> TeamMember

  // ---------------------------------------------------------------------
  // Registration

  /** The record `add_team_member` registers: no user request and the
      default confidence. */
  function Registered(id: string, role: string, isDefault: bool): (m: TeamMember)
    ensures m.teamMemberId == id && m.role == role
    ensures IsDefault(m) <==> isDefault
    ensures m.userRequest == None && m.confidence == Some(0.0)
  {
    TeamMember(id, role, defaultTeamMember := Some(isDefault))
  }

  // ---------------------------------------------------------------------
  // Default lookup

  /** The first registered member whose default flag is set, or none. */
  function DefaultTeamMember(members: seq<TeamMember>): (r: Option<TeamMember>)
    ensures r.None? <==> forall i :: 0 <= i < |members| ==> !IsDefault(members[i])
    ensures r.Some? ==> r.value in members && IsDefault(r.value)
  {
    if members == [] then None
    else if IsDefault(members[0]) then Some(members[0])
    else
      var r := DefaultTeamMember(members[1..]);
      assert forall i :: 1 <= i < |members| ==> members[i] == members[1..][i - 1];
      r
  }

  /** The default is the member at the first index carrying the flag. */
  lemma {:induction false} FirstDefaultWins(members: seq<TeamMember>, i: nat)
    requires i < |members| && IsDefault(members[i])
    requires forall j :: 0 <= j < i ==> !IsDefault(members[j])
    ensures DefaultTeamMember(members) == Some(members[i])
  {
    if i > 0 {
      assert !IsDefault(members[0]);
      FirstDefaultWins(members[1..], i - 1);
    }
  }

  /** Registering one more member never displaces an existing default; it
      becomes the default only when there was none and its flag is set. */
  lemma {:induction false} DefaultAfterRegistering(members: seq<TeamMember>, m: TeamMember)
    ensures DefaultTeamMember(members + [m]) ==
      if DefaultTeamMember(members).Some? then DefaultTeamMember(members)
      else if IsDefault(m) then Some(m)
      else None
  {
    if members == [] {
      assert members + [m] == [m];
    } else {
      assert (members + [m])[1..] == members[1..] + [m];
      DefaultAfterRegistering(members[1..], m);
    }
  }

  // ---------------------------------------------------------------------
  // Prompt fragment

  /** The text between a member's id and its role. */
  const MatchesDescription: string :=
    " as the team member id if the user has made a request that matches the following description:\n"

  /** The line that describes one member to the classifier. */
  function MemberLine(m: TeamMember): string {
    "Use " + m.teamMemberId + MatchesDescription + m.role + "\n"
  }

  /** A member's line opens with `Use ` and the member's id, and closes
      with the member's role and a newline. */
  lemma MemberLineNamesMember(m: TeamMember)
    ensures var line := MemberLine(m);
      |line| == 4 + |m.teamMemberId| + |MatchesDescription| + |m.role| + 1
      && line[..4] == "Use " && line[4..4 + |m.teamMemberId|] == m.teamMemberId
      && line[|line| - |m.role| - 1..|line| - 1] == m.role && line[|line| - 1] == '\n'
  {
  }

  /** The closing line that tells the classifier about the sentinel. */
  const UnknownLine: string :=
    "Use " + UnknownTeamMember
      + " if the user has made a request that does not match any of the above descriptions."

  /** The member lines, in registry order. */
  function MemberLines(members: seq<TeamMember>): string {
    if members == [] then ""
    else MemberLines(members[..|members| - 1]) + MemberLine(members[|members| - 1])
  }

  /** Only an empty registry has no member lines: every member contributes
      a line of its own. */
  lemma NoLinesOnlyForNoMembers(members: seq<TeamMember>)
    ensures MemberLines(members) == "" <==> members == []
  {
  }

  /** Member `i`'s line sits in `prompt` after the lines of the members
      before it and before the lines of the members after it, which the
      sentinel line closes. */
  ghost predicate LinePlaced(prompt: string, members: seq<TeamMember>, i: nat)
    requires i < |members|
  {
    prompt == MemberLines(members[..i]) + MemberLine(members[i]) + MemberLines(members[i + 1..]) + UnknownLine
  }

  /** The whole fragment: one line per member, then the sentinel line. */
  function TeamMemberPrompt(members: seq<TeamMember>): (p: string)
    ensures |p| >= |UnknownLine| && p[|p| - |UnknownLine|..] == UnknownLine
    ensures forall i :: 0 <= i < |members| ==> LinePlaced(p, members, i)
  {
    var p := MemberLines(members) + UnknownLine;
    assert forall i :: 0 <= i < |members| ==> LinePlaced(p, members, i) by {
      forall i | 0 <= i < |members| ensures LinePlaced(p, members, i) {
        MemberLineAt(members, i);
      }
    }
    p
  }

  /** The member lines of a concatenation are the concatenation of the lines. */
  lemma {:induction false} MemberLinesAppend(a: seq<TeamMember>, b: seq<TeamMember>)
    ensures MemberLines(a + b) == MemberLines(a) + MemberLines(b)
    decreases |b|
  {
    if b == [] {
      assert a + b == a;
    } else {
      var n := |b| - 1;
      assert (a + b)[..|a + b| - 1] == a + b[..n];
      calc {
        MemberLines(a + b);
        MemberLines(a + b[..n]) + MemberLine(b[n]);
      ==  { MemberLinesAppend(a, b[..n]); }
        MemberLines(a) + MemberLines(b[..n]) + MemberLine(b[n]);
      }
    }
  }

  /** Read from the front: the first member's line comes first. */
  lemma FrontMemberLine(m: TeamMember, rest: seq<TeamMember>)
    ensures MemberLines([m] + rest) == MemberLine(m) + MemberLines(rest)
  {
    MemberLinesAppend([m], rest);
    assert [m][..0] == [];
  }

  /** The line of member `i` sits, whole, between the lines of the members
      registered before it and those registered after it. */
  lemma MemberLineAt(members: seq<TeamMember>, i: nat)
    requires i < |members|
    ensures MemberLines(members) ==
      MemberLines(members[..i]) + MemberLine(members[i]) + MemberLines(members[i + 1..])
  {
    var before, m, after := members[..i], members[i], members[i + 1..];
    var upTo := before + [m];
    SplitAt(members, i);
    calc {
      MemberLines(members);
    ==  { MemberLinesAppend(upTo, after); }
      MemberLines(upTo) + MemberLines(after);
    ==  { MemberLinesSnoc(before, m); }
      MemberLines(before) + MemberLine(m) + MemberLines(after);
    }
  }

  /** A sequence is its prefix, its `i`-th element and its suffix. */
  lemma SplitAt<T>(s: seq<T>, i: nat)
    requires i < |s|
    ensures s == s[..i] + [s[i]] + s[i + 1..]
  {
  }

  /** Registering a member appends its line to the member lines. */
  lemma MemberLinesSnoc(members: seq<TeamMember>, m: TeamMember)
    ensures MemberLines(members + [m]) == MemberLines(members) + MemberLine(m)
  {
    assert (members + [m])[..|members|] == members;
  }

  /** The closing line names the sentinel right after `Use `. */
  lemma UnknownLineNamesSentinel()
    ensures UnknownLine[..4] == "Use " && UnknownLine[4..4 + |UnknownTeamMember|] == "UNKNOWN"
  {
  }

  /** Registering a member inserts its line just before the sentinel line. */
  lemma PromptAfterRegistering(members: seq<TeamMember>, m: TeamMember)
    ensures TeamMemberPrompt(members + [m]) ==
      MemberLines(members) + MemberLine(m) + UnknownLine
  {
    MemberLinesSnoc(members, m);
  }

  // ---------------------------------------------------------------------
  // Fallback and routing

  /** The fallback on one classification: an `UNKNOWN` id is replaced by
      the default's id when there is a default; nothing else changes. */
  function Fallback(classified: TeamMember, default: Option<TeamMember>): (r: TeamMember)
    ensures r == classified.(teamMemberId := r.teamMemberId)
    ensures classified.teamMemberId != UnknownTeamMember ==> r == classified
    ensures default.None? ==> r == classified
    ensures classified.teamMemberId == UnknownTeamMember && default.Some? ==>
      r.teamMemberId == default.value.teamMemberId
  {
    if classified.teamMemberId == UnknownTeamMember && default.Some? then
      classified.(teamMemberId := default.value.teamMemberId)
    else
      classified
  }

  /** The sentinel survives the fallback only when there is no default or
      the default itself was registered under the id `UNKNOWN`. */
  lemma UnknownSurvives(classified: TeamMember, default: Option<TeamMember>)
    ensures Fallback(classified, default).teamMemberId == UnknownTeamMember <==>
      classified.teamMemberId == UnknownTeamMember
      && (default.None? || default.value.teamMemberId == UnknownTeamMember)
  {
  }

  /** The classification of each sub-request, in order, after the fallback. */
  function CoupleRequests(requests: seq<string>, prompt: string, default: Option<TeamMember>,
                          classify: Classifier): (r: seq<TeamMember>)
    ensures |r| == |requests|
    ensures forall i :: 0 <= i < |requests| ==>
      r[i] == Fallback(classify(prompt, requests[i]), default)
  {
    if requests == [] then []
    else
      var n := |requests| - 1;
      CoupleRequests(requests[..n], prompt, default, classify)
        + [Fallback(classify(prompt, requests[n]), default)]
  }

  /** What one call of the coupler returns for a registry and a raw request. */
  function Couple(members: seq<TeamMember>, request: string, extract: Extractor,
                  classify: Classifier): (r: Result<seq<TeamMember>>)
    ensures members == [] ==> r == Err(NoTeamMembers)
    ensures members != [] && extract(request) == [] ==> r == Err(NoUserRequests)
    ensures r.Ok? <==> members != [] && extract(request) != []
    ensures r.Ok? ==> |r.value| == |extract(request)|
    ensures r.Ok? ==> forall i :: 0 <= i < |r.value| ==>
      r.value[i] == Fallback(classify(TeamMemberPrompt(members), extract(request)[i]),
                             DefaultTeamMember(members))
  {
    if members == [] then Err(NoTeamMembers)
    else
      var requests := extract(request);
      if requests == [] then Err(NoUserRequests)
      else Ok(CoupleRequests(requests, TeamMemberPrompt(members), DefaultTeamMember(members), classify))
  }

  /** The fallback law for a whole call: a sub-request classified `UNKNOWN`
      is routed to the registry's default, when it has one, and otherwise
      keeps the sentinel; role, confidence and echoed request are the
      classifier's. */
  lemma RoutedToDefault(members: seq<TeamMember>, request: string, extract: Extractor,
                        classify: Classifier, i: nat)
    requires members != [] && i < |extract(request)|
    requires classify(TeamMemberPrompt(members), extract(request)[i]).teamMemberId == UnknownTeamMember
    ensures Couple(members, request, extract, classify).Ok?
    ensures var c := classify(TeamMemberPrompt(members), extract(request)[i]);
            var r := Couple(members, request, extract, classify).value[i];
            r.role == c.role && r.confidence == c.confidence && r.userRequest == c.userRequest
            && r.teamMemberId == match DefaultTeamMember(members)
                                 case Some(d) => d.teamMemberId
                                 case None => UnknownTeamMember
  {
  }

  // ---------------------------------------------------------------------
  // The coupler object

  /** The coupler. Its registry is an ordered list that registration only
      appends to: ids need not be unique and several members may carry the
      default flag. */
  class AgenticCoupler {
    var teamMembers: seq<TeamMember>

    constructor ()
      ensures teamMembers == []
    {
      teamMembers := [];
    }

    /** Registers one member at the end of the registry. */
    method AddTeamMember(teamMemberId: string, role: string, defaultTeamMember: bool := false)
      modifies this
      ensures teamMembers == old(teamMembers) + [Registered(teamMemberId, role, defaultTeamMember)]
      ensures |teamMembers| == |old(teamMembers)| + 1
    {
      teamMembers := teamMembers + [Registered(teamMemberId, role, defaultTeamMember)];
    }

    /** Builds the prompt fragment line by line, in registry order. */
    method BuildTeamMemberPrompt() returns (prompt: string)
      ensures prompt == TeamMemberPrompt(teamMembers)
    {
      prompt := "";
      for i := 0 to |teamMembers|
        invariant prompt == MemberLines(teamMembers[..i])
      {
        assert teamMembers[..i + 1][..i] == teamMembers[..i];
        prompt := prompt + MemberLine(teamMembers[i]);
      }
      assert teamMembers[..|teamMembers|] == teamMembers;
      prompt := prompt + UnknownLine;
    }

    /** Routes one raw request: fails on an empty registry before the
        splitter is consulted, fails when the split is empty, and otherwise
        classifies every sub-request in order, applying the fallback. */
    method Call(request: string, extract: Extractor, classify: Classifier)
      returns (r: Result<seq<TeamMember>>)
      ensures r == Couple(teamMembers, request, extract, classify)
    {
      if |teamMembers| == 0 {
        return Err(NoTeamMembers);
      }
      var userRequests := extract(request);
      if |userRequests| == 0 {
        return Err(NoUserRequests);
      }
      var default := DefaultTeamMember(teamMembers);
      var prompt := BuildTeamMemberPrompt();
      var coupled: seq<TeamMember> := [];
      for i := 0 to |userRequests|
        invariant |coupled| == i
        invariant forall k :: 0 <= k < i ==> coupled[k] == Fallback(classify(prompt, userRequests[k]), default)
      {
        var teamMember := classify(prompt, userRequests[i]);
        if teamMember.teamMemberId == UnknownTeamMember && default.Some? {
          teamMember := teamMember.(teamMemberId := default.value.teamMemberId);
        }
        coupled := coupled + [teamMember];
      }
      assert coupled == CoupleRequests(userRequests, prompt, default, classify);
      r := Ok(coupled);
    }
  }

  /** A registry with a default manager routes an unmatched request to it,
      and one without a default leaves the sentinel in place. */
  method WeatherScenario() {
    var coupler := new AgenticCoupler();
    coupler.AddTeamMember("MARKETING", "creates or provides marketing materials as requested");
    coupler.AddTeamMember("SALES", "handles all sales from new leads to closing deals");
    var split: Extractor := (s: string) => [s];
    var unmatched: Classifier := (p: string, u: string) =>
      TeamMember(UnknownTeamMember, "", userRequest := Some(u));
    var r := coupler.Call("What's the weather today?", split, unmatched);
    assert r.Ok? && |r.value| == 1;
    assert r.value[0].teamMemberId == UnknownTeamMember;

    coupler.AddTeamMember("TEAM_MANAGER", "makes all management decisions", true);
    r := coupler.Call("What's the weather today?", split, unmatched);
    DefaultAfterRegistering(coupler.teamMembers[..2], coupler.teamMembers[2]);
    assert r.Ok? && r.value[0].teamMemberId == "TEAM_MANAGER";
    assert r.value[0].userRequest == Some("What's the weather today?");
  }
}
