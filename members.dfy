/** The member collection and the member service: login, profile updates,
    viewing a member (with its view counter), the statistic editor the
    property service calls, and the two paginated member lists. */
module Members {
  import opened Common
  import opened Counters
  import opened Query

  datatype MemberType = User | Agent | Admin
  datatype MemberStatus = Active | Block | Delete

  /** Enumerations are stored by name. */
  function TypeName(t: MemberType): string
  {
    match t
    case User => "USER"
    case Agent => "AGENT"
    case Admin => "ADMIN"
  }

  function StatusName(s: MemberStatus): string
  {
    match s
    case Active => "ACTIVE"
    case Block => "BLOCK"
    case Delete => "DELETE"
  }

  lemma NamesDistinct(a: MemberStatus, b: MemberStatus, s: MemberType, t: MemberType)
    ensures StatusName(a) == StatusName(b) ==> a == b
    ensures TypeName(s) == TypeName(t) ==> s == t
  {
    if StatusName(a) == StatusName(b) {
      assert StatusName(a)[0] == StatusName(b)[0];
    }
    if TypeName(s) == TypeName(t) {
      assert TypeName(s)[1] == TypeName(t)[1];
    }
  }

  /** A member document. The integer statistics (memberProperty,
      memberViews, memberLikes, ...) live in `stats`, addressed by name. */
  datatype Member = Member(
    id: Id,
    memberType: MemberType,
    memberStatus: MemberStatus,
    memberPhone: string,
    memberNick: string,
    memberPassword: string,
    memberFullName: Option<string>,
    memberImage: string,
    memberAddress: Option<string>,
    memberDesc: Option<string>,
    stats: Counters,
    createdAt: int)

  /** The fields a member list can match or sort on. */
  datatype MemberField = TypeField | StatusField | NickField | PhoneField | CreatedAtField | StatField(name: string)

  /** A member as a store document. */
  function MemberDoc(m: Member, f: MemberField): Option<Value>
  {
    match f
    case TypeField => Some(TextVal(TypeName(m.memberType)))
    case StatusField => Some(TextVal(StatusName(m.memberStatus)))
    case NickField => Some(TextVal(m.memberNick))
    case PhoneField => Some(TextVal(m.memberPhone))
    case CreatedAtField => Some(IntVal(m.createdAt))
    case StatField(name) => if name in m.stats then Some(IntVal(m.stats[name])) else None
  }

  predicate MemberMatches(m: Member, match_: Match<MemberField>, regex: Regex)
  {
    Matches(f => MemberDoc(m, f), match_, regex)
  }

  /** The `$match` stage of a member list, as a filter. */
  function MemberFilter(match_: Match<MemberField>, regex: Regex): Member -> bool
  {
    m => MemberMatches(m, match_, regex)
  }

  /** The sort key of a member list. */
  function MemberKey(f: MemberField): Member -> Option<int>
  {
    m => SortKey(MemberDoc(m, f))
  }

  /** The profile fields an update may supply. The description is supplied
      as `memberDesx`, which names no member field. */
  datatype MemberUpdate = MemberUpdate(
    id: Id,
    memberType: Option<MemberType>,
    memberStatus: Option<MemberStatus>,
    memberPhone: Option<string>,
    memberNick: Option<string>,
    memberPassword: Option<string>,
    memberFullName: Option<string>,
    memberImage: Option<string>,
    memberAddress: Option<string>,
    memberDesx: Option<string>)

  /** The member after `findOneAndUpdate(search, input)`: every supplied
      field is set, everything else (id, statistics, creation time and the
      description) is kept. */
  function Updated(m: Member, u: MemberUpdate): (r: Member)
    ensures r.id == m.id && r.stats == m.stats && r.createdAt == m.createdAt && r.memberDesc == m.memberDesc
    ensures u.memberStatus.Some? ==> r.memberStatus == u.memberStatus.value
    ensures u.memberStatus.None? ==> r.memberStatus == m.memberStatus
    ensures u.memberNick.Some? ==> r.memberNick == u.memberNick.value
    ensures u.memberNick.None? ==> r.memberNick == m.memberNick
    ensures u.memberType.Some? ==> r.memberType == u.memberType.value
    ensures u.memberType.None? ==> r.memberType == m.memberType
    ensures u.memberPhone.Some? ==> r.memberPhone == u.memberPhone.value
    ensures u.memberPhone.None? ==> r.memberPhone == m.memberPhone
    ensures u.memberPassword.Some? ==> r.memberPassword == u.memberPassword.value
    ensures u.memberPassword.None? ==> r.memberPassword == m.memberPassword
    ensures u.memberFullName.Some? ==> r.memberFullName == u.memberFullName
    ensures u.memberFullName.None? ==> r.memberFullName == m.memberFullName
    ensures u.memberImage.Some? ==> r.memberImage == u.memberImage.value
    ensures u.memberImage.None? ==> r.memberImage == m.memberImage
    ensures u.memberAddress.Some? ==> r.memberAddress == u.memberAddress
    ensures u.memberAddress.None? ==> r.memberAddress == m.memberAddress
    ensures u == MemberUpdate(u.id, None, None, None, None, None, None, None, None, u.memberDesx) ==> r == m
  {
    m.(memberType := Pick(u.memberType, m.memberType),
       memberStatus := Pick(u.memberStatus, m.memberStatus),
       memberPhone := Pick(u.memberPhone, m.memberPhone),
       memberNick := Pick(u.memberNick, m.memberNick),
       memberPassword := Pick(u.memberPassword, m.memberPassword),
       memberFullName := if u.memberFullName.Some? then u.memberFullName else m.memberFullName,
       memberImage := Pick(u.memberImage, m.memberImage),
       memberAddress := if u.memberAddress.Some? then u.memberAddress else m.memberAddress)
  }

  /** The `login` decision on the document found by nick: a missing or
      deleted member, then a blocked one, then a wrong password; the status
      checks come before the password is compared. */
  function LoginCheck(response: Option<Member>, password: string, comparePassword: (string, string) -> bool): (r: Result<Member>)
    ensures r == Err(NoMemberNick) <==> response.None? || response.value.memberStatus == Delete
    ensures r == Err(BlockedUser) <==> response.Some? && response.value.memberStatus == Block
    ensures r == Err(WrongPassword) <==>
              response.Some? && response.value.memberStatus == Active && !comparePassword(password, response.value.memberPassword)
    ensures r.Ok? <==>
              response.Some? && response.value.memberStatus == Active && comparePassword(password, response.value.memberPassword)
    ensures r.Ok? ==> r.value == response.value
  {
    if response.None? then Err(NoMemberNick)
    else match response.value.memberStatus
      case Delete => Err(NoMemberNick)
      case Block => Err(BlockedUser)
      case Active =>
        if !comparePassword(password, response.value.memberPassword) then Err(WrongPassword)
        else Ok(response.value)
  }

  /** What `findOne({ memberNick })` may return: some stored member with that
      nick, or nothing exactly when no stored member has it. */
  predicate FoundByNick(members: map<Id, Member>, memberNick: string, response: Option<Member>)
  {
    && (response.None? ==> forall m :: m in members.Values ==> m.memberNick != memberNick)
    && (response.Some? ==> response.value in members.Values && response.value.memberNick == memberNick)
  }

  /** `getMember` finds only active and blocked members. */
  predicate Visible(m: Member)
  {
    m.memberStatus == Active || m.memberStatus == Block
  }

  /** The member after a view: `memberViews` is one higher when the view
      counts, and nothing else changes. */
  function Viewed(m: Member, counts: bool): (r: Member)
    ensures Stat(r.stats, "memberViews") == Stat(m.stats, "memberViews") + (if counts then 1 else 0)
    ensures forall k :: k != "memberViews" ==> Stat(r.stats, k) == Stat(m.stats, k)
    ensures r.(stats := m.stats) == m
  {
    if counts then m.(stats := Inc(m.stats, "memberViews", 1)) else m
  }

  /** The collection after `$inc` of one statistic of the member with id
      `id`; a missing id changes nothing. */
  function MemberStatsEdited(members: map<Id, Member>, id: Id, key: string, modifier: int): (r: map<Id, Member>)
    ensures r.Keys == members.Keys
    ensures forall k :: k in members && k != id ==> r[k] == members[k]
    ensures id in members ==> r[id].(stats := members[id].stats) == members[id]
    ensures id in members ==> Stat(r[id].stats, key) == Stat(members[id].stats, key) + modifier
    ensures id in members ==> forall k :: k != key ==> Stat(r[id].stats, k) == Stat(members[id].stats, k)
  {
    if id in members then members[id := members[id].(stats := Inc(members[id].stats, key, modifier))] else members
  }

  /** `getAgents`: active agents, whose nick matches the text when one is
      given. */
  predicate ListedAgent(m: Member, text: Option<string>, regex: Regex)
  {
    m.memberType == Agent && m.memberStatus == Active && (TextGiven(text) ==> regex(text.value, m.memberNick))
  }

  /** The members `getAgents` lists. */
  ghost function ListedAgents(members: map<Id, Member>, text: Option<string>, regex: Regex): set<Member>
  {
    set m | m in members.Values && ListedAgent(m, text, regex)
  }

  /** The match object of `getAgents`: active agents, and the nick pattern
      when a text is given. */
  function AgentMatch(text: Option<string>): (r: Match<MemberField>)
    ensures r.anyOf.None?
    ensures r.fields.Keys == {TypeField, StatusField} + (if TextGiven(text) then {NickField} else {})
    ensures r.fields[TypeField] == Equals(TextVal(TypeName(Agent)))
    ensures r.fields[StatusField] == Equals(TextVal(StatusName(Active)))
    ensures TextGiven(text) ==> r.fields[NickField] == Pattern(text.value)
  {
    var base := map[TypeField := Equals(TextVal(TypeName(Agent))), StatusField := Equals(TextVal(StatusName(Active)))];
    Match(if TextGiven(text) then base[NickField := Pattern(text.value)] else base, None)
  }

  /** The search part of `getAllMembersByAdmin`. */
  datatype MembersSearch = MembersSearch(memberStatus: Option<MemberStatus>, memberType: Option<MemberType>, text: Option<string>)

  /** `getAllMembersByAdmin`: each supplied filter must hold; with none,
      every member is listed. */
  predicate ListedByAdmin(m: Member, s: MembersSearch, regex: Regex)
  {
    && (s.memberStatus.Some? ==> m.memberStatus == s.memberStatus.value)
    && (s.memberType.Some? ==> m.memberType == s.memberType.value)
    && (TextGiven(s.text) ==> regex(s.text.value, m.memberNick))
  }

  /** The members `getAllMembersByAdmin` lists. */
  ghost function ListedByAdminSet(members: map<Id, Member>, s: MembersSearch, regex: Regex): set<Member>
  {
    set m | m in members.Values && ListedByAdmin(m, s, regex)
  }

  /** The match object of `getAllMembersByAdmin`: one equality per supplied
      enumeration filter and the nick pattern when a text is given. */
  function AdminMatch(s: MembersSearch): (r: Match<MemberField>)
    ensures r.anyOf.None?
    ensures r.fields.Keys == (if s.memberStatus.Some? then {StatusField} else {})
                           + (if s.memberType.Some? then {TypeField} else {})
                           + (if TextGiven(s.text) then {NickField} else {})
    ensures s.memberStatus.Some? ==> r.fields[StatusField] == Equals(TextVal(StatusName(s.memberStatus.value)))
    ensures s.memberType.Some? ==> r.fields[TypeField] == Equals(TextVal(TypeName(s.memberType.value)))
    ensures TextGiven(s.text) ==> r.fields[NickField] == Pattern(s.text.value)
  {
    var a: map<MemberField, Constraint> := map[];
    var b := if s.memberStatus.Some? then a[StatusField := Equals(TextVal(StatusName(s.memberStatus.value)))] else a;
    var c := if s.memberType.Some? then b[TypeField := Equals(TextVal(TypeName(s.memberType.value)))] else b;
    Match(if TextGiven(s.text) then c[NickField := Pattern(s.text.value)] else c, None)
  }

  class MemberService {
    var members: map<Id, Member>

    /** Every document is stored under its own id. */
    ghost predicate Valid()
      reads this
    {
      forall k :: k in members ==> members[k].id == k
    }

    constructor ()
      ensures Valid() && members == map[]
    {
      members := map[];
    }

    /** Finds the member by nick and applies the status chain, then the
        password comparison (`comparePassword` stands for the hashing
        service). */
    method Login(memberNick: string, memberPassword: string, comparePassword: (string, string) -> bool)
      returns (r: Result<Member>)
      ensures (forall m :: m in members.Values ==> m.memberNick != memberNick) ==> r == Err(NoMemberNick)
      ensures r.Err? ==> r.message == NoMemberNick || r.message == BlockedUser || r.message == WrongPassword
      ensures r.Ok? ==> && r.value in members.Values && r.value.memberNick == memberNick
                        && r.value.memberStatus == Active && comparePassword(memberPassword, r.value.memberPassword)
      ensures r == Err(BlockedUser) ==> exists m :: m in members.Values && m.memberNick == memberNick && m.memberStatus == Block
      ensures r == Err(WrongPassword) ==>
                exists m :: m in members.Values && m.memberNick == memberNick && m.memberStatus == Active
                            && !comparePassword(memberPassword, m.memberPassword)
      ensures exists response :: FoundByNick(members, memberNick, response)
                                 && r == LoginCheck(response, memberPassword, comparePassword)
    {
      var response: Option<Member> := None;
      if k :| k in members && members[k].memberNick == memberNick {
        response := Some(members[k]);
      }
      r := LoginCheck(response, memberPassword, comparePassword);
      assert FoundByNick(members, memberNick, response);
    }

    /** Applies the update to the member with the given id, provided it is
        active; otherwise raises UPDATE_FAILED. */
    method UpdateMember(memberId: Id, input: MemberUpdate) returns (r: Result<Member>)
      requires Valid()
      modifies this
      ensures Valid()
      ensures var found := memberId in old(members) && old(members)[memberId].memberStatus == Active;
              && (!found ==> r == Err(UpdateFailed) && members == old(members))
              && (found ==> r == Ok(Updated(old(members)[memberId], input)) && members == old(members)[memberId := r.value])
    {
      if !(memberId in members && members[memberId].memberStatus == Active) {
        return Err(UpdateFailed);
      }
      var result := Updated(members[memberId], input);
      members := members[memberId := result];
      r := Ok(result);
    }

    /** The admin update: any member with the input's id, whatever its
        status. */
    method UpdateMemberByAdmin(input: MemberUpdate) returns (r: Result<Member>)
      requires Valid()
      modifies this
      ensures Valid()
      ensures input.id !in old(members) ==> r == Err(UpdateFailed) && members == old(members)
      ensures input.id in old(members) ==>
                r == Ok(Updated(old(members)[input.id], input)) && members == old(members)[input.id := r.value]
    {
      if input.id !in members {
        return Err(UpdateFailed);
      }
      var result := Updated(members[input.id], input);
      members := members[input.id := result];
      r := Ok(result);
    }

    /** Finds an active or blocked member; when a viewer is given and the
        view service reports a new view (`newView`), raises `memberViews` by
        one both in the store and in the returned copy. */
    method GetMember(viewer: Option<Id>, targetId: Id, newView: bool) returns (r: Result<Member>)
      requires Valid()
      modifies this
      ensures Valid()
      ensures !(targetId in old(members) && Visible(old(members)[targetId])) ==>
                r == Err(NoDataFound) && members == old(members)
      ensures targetId in old(members) && Visible(old(members)[targetId]) ==>
                && r == Ok(Viewed(old(members)[targetId], viewer.Some? && newView))
                && members == old(members)[targetId := r.value]
    {
      if !(targetId in members && Visible(members[targetId])) {
        return Err(NoDataFound);
      }
      var targetMember := members[targetId];
      if viewer.Some? {
        if newView {
          members := members[targetId := members[targetId].(stats := Inc(members[targetId].stats, "memberViews", 1))];
          targetMember := targetMember.(stats := Inc(targetMember.stats, "memberViews", 1));
        }
      }
      r := Ok(targetMember);
    }

    /** `$inc` of one statistic of one member; the updated member, or
        nothing when no member has the id. */
    method MemberStatsEditor(id: Id, targetKey: string, modifier: int) returns (r: Option<Member>)
      requires Valid()
      modifies this
      ensures Valid()
      ensures members == MemberStatsEdited(old(members), id, targetKey, modifier)
      ensures r == if id in members then Some(members[id]) else None
    {
      if id !in members {
        return None;
      }
      members := members[id := members[id].(stats := Inc(members[id].stats, targetKey, modifier))];
      r := Some(members[id]);
    }

    /** Active agents, optionally filtered by nick, sorted (default:
        `createdAt` descending) and paginated; NO_DATA_FOUND exactly when
        the count facet is empty, i.e. nothing matches. */
    method GetAgents(input: Inquiry<MemberField, Option<string>>, regex: Regex)
      returns (r: Result<Facet<Member>>, ghost arranged: seq<Member>)
      requires Valid() && input.page >= 1 && input.limit >= 1
      ensures var listed := ListedAgents(members, input.search, regex);
              && (r.Err? <==> |listed| == 0)
              && (r.Err? ==> r.message == NoDataFound)
              && (forall m :: m in arranged <==> m in listed)
              && NoDup(arranged) && |arranged| == |listed|
              && SortedBy(arranged, MemberKey(SortField(input.sort, CreatedAtField)), SortDirection(input.direction))
              && (r.Ok? ==> r.value.list == Window(arranged, input.page, input.limit) && r.value.metaCounter == [|listed|])
    {
      AgentsListed(members, input.search, regex);
      var result;
      result, arranged := Aggregate(members, MemberFilter(AgentMatch(input.search), regex), MemberKey(SortField(input.sort, CreatedAtField)),
                                    SortDirection(input.direction), input.page, input.limit);
      if result.metaCounter == [] {
        return Err(NoDataFound), arranged;
      }
      r := Ok(result);
    }

    /** Every member, or those of the supplied status, type and nick text,
        sorted and paginated; the facet always yields its one document, so
        this never raises. */
    method GetAllMembersByAdmin(input: Inquiry<MemberField, MembersSearch>, regex: Regex)
      returns (r: Result<Facet<Member>>, ghost arranged: seq<Member>)
      requires Valid() && input.page >= 1 && input.limit >= 1
      ensures var listed := ListedByAdminSet(members, input.search, regex);
              && r.Ok?
              && (forall m :: m in arranged <==> m in listed)
              && NoDup(arranged) && |arranged| == |listed|
              && SortedBy(arranged, MemberKey(SortField(input.sort, CreatedAtField)), SortDirection(input.direction))
              && r.value.list == Window(arranged, input.page, input.limit)
              && r.value.metaCounter == Counter(|listed|)
    {
      AdminListed(members, input.search, regex);
      var result;
      result, arranged := Aggregate(members, MemberFilter(AdminMatch(input.search), regex), MemberKey(SortField(input.sort, CreatedAtField)),
                                    SortDirection(input.direction), input.page, input.limit);
      r := Ok(result);
    }
  }

  lemma AgentsListed(members: map<Id, Member>, text: Option<string>, regex: Regex)
    ensures Selected(members, MemberFilter(AgentMatch(text), regex)) == ListedAgents(members, text, regex)
  {
    forall m ensures MemberFilter(AgentMatch(text), regex)(m) <==> ListedAgent(m, text, regex) {
      AgentMatchMeaning(m, AgentMatch(text), text, regex);
    }
  }

  lemma AdminListed(members: map<Id, Member>, s: MembersSearch, regex: Regex)
    ensures Selected(members, MemberFilter(AdminMatch(s), regex)) == ListedByAdminSet(members, s, regex)
  {
    forall m ensures MemberFilter(AdminMatch(s), regex)(m) <==> ListedByAdmin(m, s, regex) {
      AdminMatchMeaning(m, AdminMatch(s), s, regex);
    }
  }

  /** The agent match object means `ListedAgent`. */
  lemma AgentMatchMeaning(m: Member, match_: Match<MemberField>, text: Option<string>, regex: Regex)
    requires match_.anyOf.None?
    requires match_.fields.Keys == {TypeField, StatusField} + (if TextGiven(text) then {NickField} else {})
    requires match_.fields[TypeField] == Equals(TextVal(TypeName(Agent)))
    requires match_.fields[StatusField] == Equals(TextVal(StatusName(Active)))
    requires TextGiven(text) ==> match_.fields[NickField] == Pattern(text.value)
    ensures MemberMatches(m, match_, regex) <==> ListedAgent(m, text, regex)
  {
    NamesDistinct(m.memberStatus, Active, m.memberType, Agent);
    var doc := f => MemberDoc(m, f);
    if ListedAgent(m, text, regex) {
      forall f | f in match_.fields ensures Satisfies(doc(f), match_.fields[f], regex) {
      }
    }
    if MemberMatches(m, match_, regex) {
      assert Satisfies(doc(TypeField), match_.fields[TypeField], regex);
      assert Satisfies(doc(StatusField), match_.fields[StatusField], regex);
      if TextGiven(text) {
        assert Satisfies(doc(NickField), match_.fields[NickField], regex);
      }
    }
  }

  /** The admin match object means `ListedByAdmin`. */
  lemma AdminMatchMeaning(m: Member, match_: Match<MemberField>, s: MembersSearch, regex: Regex)
    requires match_.anyOf.None?
    requires match_.fields.Keys == (if s.memberStatus.Some? then {StatusField} else {})
                                 + (if s.memberType.Some? then {TypeField} else {})
                                 + (if TextGiven(s.text) then {NickField} else {})
    requires s.memberStatus.Some? ==> match_.fields[StatusField] == Equals(TextVal(StatusName(s.memberStatus.value)))
    requires s.memberType.Some? ==> match_.fields[TypeField] == Equals(TextVal(TypeName(s.memberType.value)))
    requires TextGiven(s.text) ==> match_.fields[NickField] == Pattern(s.text.value)
    ensures MemberMatches(m, match_, regex) <==> ListedByAdmin(m, s, regex)
  {
    var doc := f => MemberDoc(m, f);
    if s.memberStatus.Some? {
      NamesDistinct(m.memberStatus, s.memberStatus.value, m.memberType, m.memberType);
    }
    if s.memberType.Some? {
      NamesDistinct(m.memberStatus, m.memberStatus, m.memberType, s.memberType.value);
    }
    if ListedByAdmin(m, s, regex) {
      forall f | f in match_.fields ensures Satisfies(doc(f), match_.fields[f], regex) {
      }
    }
    if MemberMatches(m, match_, regex) {
      if s.memberStatus.Some? {
        assert Satisfies(doc(StatusField), match_.fields[StatusField], regex);
      }
      if s.memberType.Some? {
        assert Satisfies(doc(TypeField), match_.fields[TypeField], regex);
      }
      if TextGiven(s.text) {
        assert Satisfies(doc(NickField), match_.fields[NickField], regex);
      }
    }
  }

  /** `createProperty` and the property updates adjust the key
      "memberProperties", which is not the DTO's `memberProperty` field:
      that field never moves. */
  lemma PropertyCountKey(members: map<Id, Member>, id: Id, modifier: int)
    ensures forall k :: k in members ==>
              Stat(MemberStatsEdited(members, id, "memberProperties", modifier)[k].stats, "memberProperty")
              == Stat(members[k].stats, "memberProperty")
  {
    assert "memberProperties" != "memberProperty" by {
      assert |"memberProperties"| != |"memberProperty"|;
    }
  }
}
