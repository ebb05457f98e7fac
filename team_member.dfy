/** The team-member record: the entity that is registered with the coupler
    and also the shape of every classification the coupler returns. */
module TeamMembers {

  /** Python's `Optional[T]`: a field that may hold `None`. */
  datatype Option<+T> = None | Some(value: T)

  /** A team member (or a classification of one sub-request).
      `teamMemberId` and `role` are required; the other three fields are
      optional and carry the record's defaults when they are not supplied.
      `confidence` is whatever the classifier reports: the record does no
      arithmetic with it and puts no range on it. */
  datatype TeamMember = TeamMember(
    teamMemberId: string,
    role: string,
    defaultTeamMember: Option<bool> := Some(false),
    userRequest: Option<string> := None,
    confidence: Option<real> := Some(0.0))

  /** Whether a member is flagged as the default. The source tests the flag
      by truthiness, so both `False` and `None` mean "not the default". */
  predicate IsDefault(m: TeamMember)
    ensures m.defaultTeamMember == Some(true) ==> IsDefault(m)
    ensures m.defaultTeamMember == Some(false) ==> !IsDefault(m)
    ensures m.defaultTeamMember == None ==> !IsDefault(m)
  {
    m.defaultTeamMember == Some(true)
  }

  /** A record built from its two required fields alone takes the defaults:
      not the default member, no user request, confidence 0.0. */
  lemma RequiredFieldsOnly(id: string, role: string)
    ensures TeamMember(id, role).teamMemberId == id && TeamMember(id, role).role == role
    ensures !IsDefault(TeamMember(id, role))
    ensures TeamMember(id, role).userRequest == None
    ensures TeamMember(id, role).confidence == Some(0.0)
  {
  }
}
