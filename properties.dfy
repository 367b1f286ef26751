/** The property collection and the property service: creating, viewing,
    updating and removing listings (with the owner's property counter), the
    like action on a listing, the statistic editor, and the three paginated
    property lists with the search-to-match shaping they share. */
module Properties {
  import opened Common
  import opened Counters
  import opened Query
  import opened Likes
  import Members

  datatype PropertyStatus = Active | Sold | Delete

  /** Statuses are stored by name. */
  function StatusName(s: PropertyStatus): string
  {
    match s
    case Active => "ACTIVE"
    case Sold => "SOLD"
    case Delete => "DELETE"
  }

  lemma StatusNamesDistinct(a: PropertyStatus, b: PropertyStatus)
    ensures StatusName(a) == StatusName(b) <==> a == b
  {
    if StatusName(a) == StatusName(b) {
      assert StatusName(a)[0] == StatusName(b)[0];
    }
  }

  /** A property document. The integer statistics (propertyViews,
      propertyLikes, ...) live in `stats`, addressed by name. Type and
      location are enumerations, stored by name. */
  datatype Property = Property(
    id: Id,
    memberId: Id,
    propertyStatus: PropertyStatus,
    propertyType: string,
    propertyLocation: string,
    propertyAddress: string,
    propertyTitle: string,
    propertyPrice: int,
    propertySquare: int,
    propertyBeds: int,
    propertyRooms: int,
    propertyBarter: bool,
    propertyRent: bool,
    stats: Counters,
    soldAt: Option<int>,
    deletedAt: Option<int>,
    createdAt: int)

  /** The fields a property list can match or sort on. */
  datatype PropertyField =
    | MemberIdField | StatusField | TypeField | LocationField | TitleField
    | PriceField | SquareField | RoomsField | BedsField | BarterField | RentField
    | CreatedAtField | StatField(name: string)

  /** A property as a store document. */
  function PropertyDoc(p: Property, f: PropertyField): Option<Value>
  {
    match f
    case MemberIdField => Some(IdVal(p.memberId))
    case StatusField => Some(TextVal(StatusName(p.propertyStatus)))
    case TypeField => Some(TextVal(p.propertyType))
    case LocationField => Some(TextVal(p.propertyLocation))
    case TitleField => Some(TextVal(p.propertyTitle))
    case PriceField => Some(IntVal(p.propertyPrice))
    case SquareField => Some(IntVal(p.propertySquare))
    case RoomsField => Some(IntVal(p.propertyRooms))
    case BedsField => Some(IntVal(p.propertyBeds))
    case BarterField => Some(BoolVal(p.propertyBarter))
    case RentField => Some(BoolVal(p.propertyRent))
    case CreatedAtField => Some(IntVal(p.createdAt))
    case StatField(name) => if name in p.stats then Some(IntVal(p.stats[name])) else None
  }

  /** A property match object: one optional constraint per field the
      services constrain, and the optional `$or` group of option flags. It
      has a slot per field rather than the generic field map of `Query.Match`,
      so that writing one filter touches one slot. */
  datatype PropertyMatch = PropertyMatch(
    memberId: Option<Constraint>,
    propertyStatus: Option<Constraint>,
    propertyType: Option<Constraint>,
    propertyLocation: Option<Constraint>,
    propertyTitle: Option<Constraint>,
    propertyPrice: Option<Constraint>,
    propertySquare: Option<Constraint>,
    propertyRooms: Option<Constraint>,
    propertyBeds: Option<Constraint>,
    createdAt: Option<Constraint>,
    anyOf: Option<seq<PropertyField>>)

  /** The match object `{}`. */
  const EmptyMatch := PropertyMatch(None, None, None, None, None, None, None, None, None, None, None)

  /** One field's constraint holds on the document, or there is none. */
  predicate Meets(doc: Option<Value>, c: Option<Constraint>, regex: Regex)
  {
    c.Some? ==> Satisfies(doc, c.value, regex)
  }

  /** `$match` on one property: every held constraint is satisfied and, with
      a `$or` group, one of its flags is `true`. */
  predicate PropertyMatches(p: Property, m: PropertyMatch, regex: Regex)
  {
    && Meets(PropertyDoc(p, MemberIdField), m.memberId, regex)
    && Meets(PropertyDoc(p, StatusField), m.propertyStatus, regex)
    && Meets(PropertyDoc(p, TypeField), m.propertyType, regex)
    && Meets(PropertyDoc(p, LocationField), m.propertyLocation, regex)
    && Meets(PropertyDoc(p, TitleField), m.propertyTitle, regex)
    && Meets(PropertyDoc(p, PriceField), m.propertyPrice, regex)
    && Meets(PropertyDoc(p, SquareField), m.propertySquare, regex)
    && Meets(PropertyDoc(p, RoomsField), m.propertyRooms, regex)
    && Meets(PropertyDoc(p, BedsField), m.propertyBeds, regex)
    && Meets(PropertyDoc(p, CreatedAtField), m.createdAt, regex)
    && (m.anyOf.Some? ==> exists i :: 0 <= i < |m.anyOf.value| && PropertyDoc(p, m.anyOf.value[i]) == Some(BoolVal(true)))
  }

  /** The `$match` stage of a property list, as a filter. */
  function PropertyFilter(m: PropertyMatch, regex: Regex): Property -> bool
  {
    p => PropertyMatches(p, m, regex)
  }

  /** The sort key of a property list. */
  function PropertyKey(f: PropertyField): Property -> Option<int>
  {
    p => SortKey(PropertyDoc(p, f))
  }

  // ---------------------------------------------------------------------
  // Search shaping

  /** The search part of a property inquiry; every filter is optional. */
  datatype PropertiesSearch = PropertiesSearch(
    memberId: Option<Id>,
    locationList: Option<seq<string>>,
    roomsList: Option<seq<int>>,
    bedsList: Option<seq<int>>,
    typeList: Option<seq<string>>,
    periodsRange: Option<Range>,
    pricesRange: Option<Range>,
    squaresRange: Option<Range>,
    options: Option<seq<PropertyField>>,
    text: Option<string>)

  /** The constraint one supplied search filter puts on one field, if any:
      equality for the owner, `$in` for the lists, an inclusive range for
      the ranges, the case-insensitive pattern for the text. */
  function SearchConstraint(s: PropertiesSearch, f: PropertyField): Option<Constraint>
  {
    match f
    case MemberIdField => if s.memberId.Some? then Some(Equals(IdVal(s.memberId.value))) else None
    case LocationField => if s.locationList.Some? then Some(OneOf(Texts(s.locationList.value))) else None
    case RoomsField => if s.roomsList.Some? then Some(OneOf(Ints(s.roomsList.value))) else None
    case BedsField => if s.bedsList.Some? then Some(OneOf(Ints(s.bedsList.value))) else None
    case TypeField => if s.typeList.Some? then Some(OneOf(Texts(s.typeList.value))) else None
    case PriceField => if s.pricesRange.Some? then Some(Between(s.pricesRange.value.start, s.pricesRange.value.end)) else None
    case CreatedAtField => if s.periodsRange.Some? then Some(Between(s.periodsRange.value.start, s.periodsRange.value.end)) else None
    case SquareField => if s.squaresRange.Some? then Some(Between(s.squaresRange.value.start, s.squaresRange.value.end)) else None
    case TitleField => if TextGiven(s.text) then Some(Pattern(s.text.value)) else None
    case _ => None
  }

  /** A supplied value, or else the current one. */
  function Over<T>(given: Option<T>, current: Option<T>): Option<T>
  {
    if given.Some? then given else current
  }

  /** The owner and list filters of `s` written over `m`'s fields. */
  predicate ListsShaped(r: PropertyMatch, m: PropertyMatch, s: PropertiesSearch)
  {
    && r.memberId == Over(SearchConstraint(s, MemberIdField), m.memberId)
    && r.propertyLocation == Over(SearchConstraint(s, LocationField), m.propertyLocation)
    && r.propertyRooms == Over(SearchConstraint(s, RoomsField), m.propertyRooms)
    && r.propertyBeds == Over(SearchConstraint(s, BedsField), m.propertyBeds)
    && r.propertyType == Over(SearchConstraint(s, TypeField), m.propertyType)
  }

  /** The range filters of `s` written over `m`'s fields. */
  predicate RangesShaped(r: PropertyMatch, m: PropertyMatch, s: PropertiesSearch)
  {
    && r.propertyPrice == Over(SearchConstraint(s, PriceField), m.propertyPrice)
    && r.createdAt == Over(SearchConstraint(s, CreatedAtField), m.createdAt)
    && r.propertySquare == Over(SearchConstraint(s, SquareField), m.propertySquare)
  }

  /** `r` is `m` with every supplied filter written over its field and the
      option flags as its `$or` group; every other field is `m`'s. */
  predicate Shaped(r: PropertyMatch, m: PropertyMatch, s: PropertiesSearch)
  {
    && ListsShaped(r, m, s)
    && RangesShaped(r, m, s)
    && r.propertyTitle == Over(SearchConstraint(s, TitleField), m.propertyTitle)
    && r.anyOf == Over(s.options, m.anyOf)
    && r.propertyStatus == m.propertyStatus
  }

  /** A boolean option flag that is set on the property. */
  predicate FlagSet(p: Property, f: PropertyField)
  {
    (f == BarterField && p.propertyBarter) || (f == RentField && p.propertyRent)
  }

  /** What the owner and list filters mean: the owner is the given one,
      and each field is among the listed values. */
  predicate ListsAccept(p: Property, s: PropertiesSearch)
  {
    && (s.memberId.Some? ==> p.memberId == s.memberId.value)
    && (s.locationList.Some? ==> p.propertyLocation in s.locationList.value)
    && (s.roomsList.Some? ==> p.propertyRooms in s.roomsList.value)
    && (s.bedsList.Some? ==> p.propertyBeds in s.bedsList.value)
    && (s.typeList.Some? ==> p.propertyType in s.typeList.value)
  }

  /** What the range filters mean: each field within its inclusive range. */
  predicate RangesAccept(p: Property, s: PropertiesSearch)
  {
    && (s.pricesRange.Some? ==> s.pricesRange.value.start <= p.propertyPrice <= s.pricesRange.value.end)
    && (s.periodsRange.Some? ==> s.periodsRange.value.start <= p.createdAt <= s.periodsRange.value.end)
    && (s.squaresRange.Some? ==> s.squaresRange.value.start <= p.propertySquare <= s.squaresRange.value.end)
  }

  /** What the search filters mean on a property, field by field: each
      supplied filter holds, and an unsupplied one asks nothing. */
  predicate SearchAccepts(p: Property, s: PropertiesSearch, regex: Regex)
  {
    && ListsAccept(p, s)
    && RangesAccept(p, s)
    && (TextGiven(s.text) ==> regex(s.text.value, p.propertyTitle))
    && (s.options.Some? ==> exists f :: f in s.options.value && FlagSet(p, f))
  }

  /** `getProperties`: active listings the search accepts. */
  predicate ListedProperty(p: Property, s: PropertiesSearch, regex: Regex)
  {
    p.propertyStatus == Active && SearchAccepts(p, s, regex)
  }

  /** The base match of `getProperties`: `{ propertyStatus: ACTIVE }`. */
  const ActiveMatch := EmptyMatch.(propertyStatus := Some(Equals(TextVal(StatusName(Active)))))

  /** The owner and list filters: each supplied one replaces its field. */
  method ShapeListFilters(m: PropertyMatch, s: PropertiesSearch) returns (r: PropertyMatch)
    ensures ListsShaped(r, m, s)
    ensures r == m.(memberId := r.memberId, propertyLocation := r.propertyLocation, propertyRooms := r.propertyRooms,
                    propertyBeds := r.propertyBeds, propertyType := r.propertyType)
  {
    var memberId, location, rooms, beds, propertyType := m.memberId, m.propertyLocation, m.propertyRooms, m.propertyBeds, m.propertyType;
    if s.memberId.Some? {
      memberId := Some(Equals(IdVal(s.memberId.value)));
    }
    if s.locationList.Some? {
      location := Some(OneOf(Texts(s.locationList.value)));
    }
    if s.roomsList.Some? {
      rooms := Some(OneOf(Ints(s.roomsList.value)));
    }
    if s.bedsList.Some? {
      beds := Some(OneOf(Ints(s.bedsList.value)));
    }
    if s.typeList.Some? {
      propertyType := Some(OneOf(Texts(s.typeList.value)));
    }
    r := m.(memberId := memberId, propertyLocation := location, propertyRooms := rooms, propertyBeds := beds, propertyType := propertyType);
  }

  /** The range filters: each supplied one becomes an inclusive bound pair. */
  method ShapeRangeFilters(m: PropertyMatch, s: PropertiesSearch) returns (r: PropertyMatch)
    ensures RangesShaped(r, m, s)
    ensures r == m.(propertyPrice := r.propertyPrice, createdAt := r.createdAt, propertySquare := r.propertySquare)
  {
    var price, createdAt, square := m.propertyPrice, m.createdAt, m.propertySquare;
    if s.pricesRange.Some? {
      price := Some(Between(s.pricesRange.value.start, s.pricesRange.value.end));
    }
    if s.periodsRange.Some? {
      createdAt := Some(Between(s.periodsRange.value.start, s.periodsRange.value.end));
    }
    if s.squaresRange.Some? {
      square := Some(Between(s.squaresRange.value.start, s.squaresRange.value.end));
    }
    r := m.(propertyPrice := price, createdAt := createdAt, propertySquare := square);
  }

  /** Writes the search filters over a match object, in the order the
      service does; an unsupplied filter leaves the match as it was. */
  method ShapeMatchQuery(m: PropertyMatch, s: PropertiesSearch) returns (r: PropertyMatch)
    ensures Shaped(r, m, s)
  {
    r := ShapeListFilters(m, s);
    r := ShapeRangeFilters(r, s);
    if TextGiven(s.text) {
      r := r.(propertyTitle := Some(Pattern(s.text.value)));
    }
    if s.options.Some? {
      r := r.(anyOf := s.options);
    }
  }

  /** A document field satisfies `$or` entry `f` exactly when `f` is a flag
      the property has set. */
  lemma FlagMeaning(p: Property, f: PropertyField)
    ensures PropertyDoc(p, f) == Some(BoolVal(true)) <==> FlagSet(p, f)
  {
  }

  /** The shaped owner and list constraints hold exactly when the owner and
      list filters accept the property. */
  lemma ListFiltersMeaning(p: Property, r: PropertyMatch, s: PropertiesSearch, regex: Regex)
    requires ListsShaped(r, EmptyMatch, s)
    ensures (&& Meets(PropertyDoc(p, MemberIdField), r.memberId, regex)
             && Meets(PropertyDoc(p, LocationField), r.propertyLocation, regex)
             && Meets(PropertyDoc(p, RoomsField), r.propertyRooms, regex)
             && Meets(PropertyDoc(p, BedsField), r.propertyBeds, regex)
             && Meets(PropertyDoc(p, TypeField), r.propertyType, regex))
            <==> ListsAccept(p, s)
  {
  }

  /** The shaped range constraints hold exactly when the range filters
      accept the property. */
  lemma RangeFiltersMeaning(p: Property, r: PropertyMatch, s: PropertiesSearch, regex: Regex)
    requires RangesShaped(r, EmptyMatch, s)
    ensures (&& Meets(PropertyDoc(p, PriceField), r.propertyPrice, regex)
             && Meets(PropertyDoc(p, CreatedAtField), r.createdAt, regex)
             && Meets(PropertyDoc(p, SquareField), r.propertySquare, regex))
            <==> RangesAccept(p, s)
  {
  }

  /** The `$or` group of the option flags holds exactly when the property
      has one of the flags set. */
  lemma OptionsMeaning(p: Property, options: seq<PropertyField>)
    ensures (exists i :: 0 <= i < |options| && PropertyDoc(p, options[i]) == Some(BoolVal(true)))
            <==> exists f :: f in options && FlagSet(p, f)
  {
    if exists f :: f in options && FlagSet(p, f) {
      var f :| f in options && FlagSet(p, f);
      var i :| 0 <= i < |options| && options[i] == f;
      FlagMeaning(p, f);
    }
    if exists i :: 0 <= i < |options| && PropertyDoc(p, options[i]) == Some(BoolVal(true)) {
      var i :| 0 <= i < |options| && PropertyDoc(p, options[i]) == Some(BoolVal(true));
      FlagMeaning(p, options[i]);
    }
  }

  /** The shaped `getProperties` match means `ListedProperty`: the active
      status, and every supplied filter, and nothing else. */
  lemma ShapedMatchMeaning(p: Property, r: PropertyMatch, s: PropertiesSearch, regex: Regex)
    requires Shaped(r, ActiveMatch, s)
    ensures PropertyMatches(p, r, regex) <==> ListedProperty(p, s, regex)
  {
    StatusNamesDistinct(p.propertyStatus, Active);
    ListFiltersMeaning(p, r, s, regex);
    RangeFiltersMeaning(p, r, s, regex);
    if s.options.Some? {
      OptionsMeaning(p, s.options.value);
    }
  }

  /** The search part of `getAgentProperties`. */
  datatype AgentPropertiesSearch = AgentPropertiesSearch(propertyStatus: Option<PropertyStatus>)

  /** `getAgentProperties`: the agent's own listings, of the requested status
      or, with none requested, of any status but DELETE. */
  predicate ListedForAgent(p: Property, memberId: Id, s: AgentPropertiesSearch)
  {
    && p.memberId == memberId
    && (if s.propertyStatus.Some? then p.propertyStatus == s.propertyStatus.value else p.propertyStatus != Delete)
  }

  /** The match object of `getAgentProperties`: the owner, and the requested
      status or `$ne: DELETE`. */
  function AgentMatch(memberId: Id, s: AgentPropertiesSearch): (r: PropertyMatch)
    ensures r.memberId == Some(Equals(IdVal(memberId)))
    ensures s.propertyStatus.Some? ==> r.propertyStatus == Some(Equals(TextVal(StatusName(s.propertyStatus.value))))
    ensures s.propertyStatus.None? ==> r.propertyStatus == Some(NotEquals(TextVal(StatusName(Delete))))
    ensures r.(memberId := None, propertyStatus := None) == EmptyMatch
  {
    EmptyMatch.(memberId := Some(Equals(IdVal(memberId))),
                propertyStatus := Some(if s.propertyStatus.Some? then Equals(TextVal(StatusName(s.propertyStatus.value)))
                                       else NotEquals(TextVal(StatusName(Delete)))))
  }

  lemma AgentMatchMeaning(p: Property, memberId: Id, s: AgentPropertiesSearch, regex: Regex)
    ensures PropertyMatches(p, AgentMatch(memberId, s), regex) <==> ListedForAgent(p, memberId, s)
  {
    StatusNamesDistinct(p.propertyStatus, if s.propertyStatus.Some? then s.propertyStatus.value else Delete);
  }

  /** The search part of `getAllPropertiesByAdmin`. */
  datatype AllPropertiesSearch = AllPropertiesSearch(propertyStatus: Option<PropertyStatus>, propertyLocationList: Option<seq<string>>)

  /** `getAllPropertiesByAdmin`: each supplied filter holds; with none,
      every listing. */
  predicate ListedByAdmin(p: Property, s: AllPropertiesSearch)
  {
    && (s.propertyStatus.Some? ==> p.propertyStatus == s.propertyStatus.value)
    && (s.propertyLocationList.Some? ==> p.propertyLocation in s.propertyLocationList.value)
  }

  /** The match object of `getAllPropertiesByAdmin`, written field by field
      from `{}`. */
  method AdminMatch(s: AllPropertiesSearch) returns (r: PropertyMatch)
    ensures forall p, regex :: PropertyMatches(p, r, regex) <==> ListedByAdmin(p, s)
  {
    r := EmptyMatch;
    if s.propertyStatus.Some? {
      r := r.(propertyStatus := Some(Equals(TextVal(StatusName(s.propertyStatus.value)))));
    }
    if s.propertyLocationList.Some? {
      r := r.(propertyLocation := Some(OneOf(Texts(s.propertyLocationList.value))));
    }
    forall p, regex ensures PropertyMatches(p, r, regex) <==> ListedByAdmin(p, s) {
      AdminMatchMeaning(p, r, s, regex);
    }
  }

  lemma AdminMatchMeaning(p: Property, m: PropertyMatch, s: AllPropertiesSearch, regex: Regex)
    requires m.(propertyStatus := None, propertyLocation := None) == EmptyMatch
    requires m.propertyStatus == if s.propertyStatus.Some? then Some(Equals(TextVal(StatusName(s.propertyStatus.value)))) else None
    requires m.propertyLocation == if s.propertyLocationList.Some? then Some(OneOf(Texts(s.propertyLocationList.value))) else None
    ensures PropertyMatches(p, m, regex) <==> ListedByAdmin(p, s)
  {
    if s.propertyStatus.Some? {
      StatusNamesDistinct(p.propertyStatus, s.propertyStatus.value);
    }
  }

  ghost function ListedProperties(properties: map<Id, Property>, s: PropertiesSearch, regex: Regex): set<Property>
  {
    set p | p in properties.Values && ListedProperty(p, s, regex)
  }

  ghost function AgentProperties(properties: map<Id, Property>, memberId: Id, s: AgentPropertiesSearch): set<Property>
  {
    set p | p in properties.Values && ListedForAgent(p, memberId, s)
  }

  ghost function AdminProperties(properties: map<Id, Property>, s: AllPropertiesSearch): set<Property>
  {
    set p | p in properties.Values && ListedByAdmin(p, s)
  }

  lemma ShapedListed(properties: map<Id, Property>, r: PropertyMatch, s: PropertiesSearch, regex: Regex)
    requires Shaped(r, ActiveMatch, s)
    ensures Selected(properties, PropertyFilter(r, regex)) == ListedProperties(properties, s, regex)
  {
    forall p ensures PropertyFilter(r, regex)(p) <==> ListedProperty(p, s, regex) {
      ShapedMatchMeaning(p, r, s, regex);
    }
  }

  lemma AgentListed(properties: map<Id, Property>, memberId: Id, s: AgentPropertiesSearch, regex: Regex)
    ensures Selected(properties, PropertyFilter(AgentMatch(memberId, s), regex)) == AgentProperties(properties, memberId, s)
  {
    forall p ensures PropertyFilter(AgentMatch(memberId, s), regex)(p) <==> ListedForAgent(p, memberId, s) {
      AgentMatchMeaning(p, memberId, s, regex);
    }
  }

  lemma AdminListed(properties: map<Id, Property>, m: PropertyMatch, s: AllPropertiesSearch, regex: Regex)
    requires forall p :: PropertyMatches(p, m, regex) <==> ListedByAdmin(p, s)
    ensures Selected(properties, PropertyFilter(m, regex)) == AdminProperties(properties, s)
  {
  }

  // ---------------------------------------------------------------------
  // Creating and updating

  /** What `createProperty` receives. */
  datatype PropertyInput = PropertyInput(
    memberId: Id,
    propertyType: string,
    propertyLocation: string,
    propertyAddress: string,
    propertyTitle: string,
    propertyPrice: int,
    propertySquare: int,
    propertyBeds: int,
    propertyRooms: int,
    propertyBarter: bool,
    propertyRent: bool)

  /** The created document: active, no statistics yet, no timestamps. */
  function Created(id: Id, input: PropertyInput, now: int): (r: Property)
    ensures r.id == id && r.memberId == input.memberId && r.createdAt == now
    ensures r.propertyStatus == Active && r.soldAt.None? && r.deletedAt.None?
    ensures forall key :: Stat(r.stats, key) == 0
    ensures && r.propertyType == input.propertyType && r.propertyLocation == input.propertyLocation
            && r.propertyAddress == input.propertyAddress && r.propertyTitle == input.propertyTitle
            && r.propertyPrice == input.propertyPrice && r.propertySquare == input.propertySquare
            && r.propertyBeds == input.propertyBeds && r.propertyRooms == input.propertyRooms
            && r.propertyBarter == input.propertyBarter && r.propertyRent == input.propertyRent
  {
    Property(id, input.memberId, Active, input.propertyType, input.propertyLocation, input.propertyAddress,
             input.propertyTitle, input.propertyPrice, input.propertySquare, input.propertyBeds, input.propertyRooms,
             input.propertyBarter, input.propertyRent, map[], None, None, now)
  }

  /** What an update may supply. */
  datatype PropertyUpdate = PropertyUpdate(
    id: Id,
    propertyType: Option<string>,
    propertyStatus: Option<PropertyStatus>,
    propertyLocation: Option<string>,
    propertyAddress: Option<string>,
    propertyTitle: Option<string>,
    propertyPrice: Option<int>,
    propertySquare: Option<int>,
    propertyBeds: Option<int>,
    propertyRooms: Option<int>,
    propertyBarter: Option<bool>,
    propertyRent: Option<bool>,
    soldAt: Option<int>,
    deletedAt: Option<int>)

  /** The document after `findOneAndUpdate(search, input)`: every supplied
      field is written and nothing else. The timestamps the service computes
      for SOLD and DELETE stay in local variables, so only timestamps the
      caller supplied reach the document. */
  function Applied(p: Property, u: PropertyUpdate): (r: Property)
    ensures r.id == p.id && r.memberId == p.memberId && r.stats == p.stats && r.createdAt == p.createdAt
    ensures r.propertyStatus == Pick(u.propertyStatus, p.propertyStatus)
    ensures r.soldAt == (if u.soldAt.Some? then u.soldAt else p.soldAt)
    ensures r.deletedAt == (if u.deletedAt.Some? then u.deletedAt else p.deletedAt)
    ensures u.propertyType.Some? ==> r.propertyType == u.propertyType.value
    ensures u.propertyType.None? ==> r.propertyType == p.propertyType
    ensures u.propertyLocation.Some? ==> r.propertyLocation == u.propertyLocation.value
    ensures u.propertyLocation.None? ==> r.propertyLocation == p.propertyLocation
    ensures u.propertyAddress.Some? ==> r.propertyAddress == u.propertyAddress.value
    ensures u.propertyAddress.None? ==> r.propertyAddress == p.propertyAddress
    ensures u.propertyTitle.Some? ==> r.propertyTitle == u.propertyTitle.value
    ensures u.propertyTitle.None? ==> r.propertyTitle == p.propertyTitle
    ensures u.propertyPrice.Some? ==> r.propertyPrice == u.propertyPrice.value
    ensures u.propertyPrice.None? ==> r.propertyPrice == p.propertyPrice
    ensures u.propertySquare.Some? ==> r.propertySquare == u.propertySquare.value
    ensures u.propertySquare.None? ==> r.propertySquare == p.propertySquare
    ensures u.propertyBeds.Some? ==> r.propertyBeds == u.propertyBeds.value
    ensures u.propertyBeds.None? ==> r.propertyBeds == p.propertyBeds
    ensures u.propertyRooms.Some? ==> r.propertyRooms == u.propertyRooms.value
    ensures u.propertyRooms.None? ==> r.propertyRooms == p.propertyRooms
    ensures u.propertyBarter.Some? ==> r.propertyBarter == u.propertyBarter.value
    ensures u.propertyBarter.None? ==> r.propertyBarter == p.propertyBarter
    ensures u.propertyRent.Some? ==> r.propertyRent == u.propertyRent.value
    ensures u.propertyRent.None? ==> r.propertyRent == p.propertyRent
    ensures u == PropertyUpdate(u.id, None, None, None, None, None, None, None, None, None, None, None, None, None) ==> r == p
  {
    p.(propertyType := Pick(u.propertyType, p.propertyType),
       propertyStatus := Pick(u.propertyStatus, p.propertyStatus),
       propertyLocation := Pick(u.propertyLocation, p.propertyLocation),
       propertyAddress := Pick(u.propertyAddress, p.propertyAddress),
       propertyTitle := Pick(u.propertyTitle, p.propertyTitle),
       propertyPrice := Pick(u.propertyPrice, p.propertyPrice),
       propertySquare := Pick(u.propertySquare, p.propertySquare),
       propertyBeds := Pick(u.propertyBeds, p.propertyBeds),
       propertyRooms := Pick(u.propertyRooms, p.propertyRooms),
       propertyBarter := Pick(u.propertyBarter, p.propertyBarter),
       propertyRent := Pick(u.propertyRent, p.propertyRent),
       soldAt := if u.soldAt.Some? then u.soldAt else p.soldAt,
       deletedAt := if u.deletedAt.Some? then u.deletedAt else p.deletedAt)
  }

  /** The decrement condition `soldAt || deletedAt` after the status
      branch: a SOLD or DELETE status, or a timestamp the caller supplied. */
  predicate Retires(u: PropertyUpdate)
  {
    u.propertyStatus == Some(Sold) || u.propertyStatus == Some(Delete) || u.soldAt.Some? || u.deletedAt.Some?
  }

  /** The local `soldAt` and `deletedAt` after the status branch: the
      caller's values, with the current time `now` put in `soldAt` for a
      SOLD status or else in `deletedAt` for a DELETE status. */
  function Stamps(u: PropertyUpdate, now: int): (Option<int>, Option<int>)
  {
    if u.propertyStatus == Some(Sold) then (Some(now), u.deletedAt)
    else if u.propertyStatus == Some(Delete) then (u.soldAt, Some(now))
    else (u.soldAt, u.deletedAt)
  }

  /** The test `soldAt || deletedAt` on the local timestamps holds exactly
      when the update retires the listing, whatever the current time. */
  lemma RetiresMeaning(u: PropertyUpdate, now: int)
    ensures Stamps(u, now).0.Some? || Stamps(u, now).1.Some? <==> Retires(u)
  {
  }

  /** Marking a listing SOLD without a timestamp writes no `soldAt`: the
      document keeps the one it had (none, for a listing never sold). */
  lemma SoldAtNotWritten(p: Property, u: PropertyUpdate)
    requires u.propertyStatus == Some(Sold) && u.soldAt.None?
    ensures Retires(u)
    ensures Applied(p, u).propertyStatus == Sold && Applied(p, u).soldAt == p.soldAt
  {
  }

  /** The owner's counter after a create and a retiring update reads as
      before: the +1 and the -1 cancel on every statistic. */
  lemma {:induction false} OwnerCountRoundTrip(members: map<Id, Members.Member>, owner: Id)
    ensures var after := Members.MemberStatsEdited(Members.MemberStatsEdited(members, owner, "memberProperties", 1),
                                                   owner, "memberProperties", -1);
            && after.Keys == members.Keys
            && forall k, key :: k in members ==> Stat(after[k].stats, key) == Stat(members[k].stats, key)
  {
    if owner in members {
      IncUndo(members[owner].stats, "memberProperties", 1);
    }
  }

  // ---------------------------------------------------------------------
  // Statistics and likes

  /** The collection after `$inc` of one statistic of the listing with id
      `id`; a missing id changes nothing. */
  function PropertyStatsEdited(properties: map<Id, Property>, id: Id, key: string, modifier: int): (r: map<Id, Property>)
    ensures r.Keys == properties.Keys
    ensures forall k :: k in properties && k != id ==> r[k] == properties[k]
    ensures id in properties ==> r[id].(stats := properties[id].stats) == properties[id]
    ensures id in properties ==> Stat(r[id].stats, key) == Stat(properties[id].stats, key) + modifier
    ensures id in properties ==> forall k :: k != key ==> Stat(r[id].stats, k) == Stat(properties[id].stats, k)
  {
    if id in properties then properties[id := properties[id].(stats := Inc(properties[id].stats, key, modifier))] else properties
  }

  /** The outcome of `likeTargetProperty` on the listings and the like
      ledger: NO_DATA_FOUND for a missing or inactive listing, the toggle's
      failure when it fails, and otherwise the toggle followed by a
      `propertyLikes` increment by its modifier. */
  function LikeTarget(properties: map<Id, Property>, ledger: seq<Like>, memberId: Id, likeRefId: Id, insertFails: bool)
    : (r: (Result<Property>, map<Id, Property>, seq<Like>))
    ensures r.1.Keys == properties.Keys
    ensures r.0.Err? ==> r.1 == properties && r.2 == ledger
    ensures !(likeRefId in properties && properties[likeRefId].propertyStatus == Active) ==> r.0 == Err(NoDataFound)
    ensures r.0.Ok? ==> likeRefId in properties && r.0.value == r.1[likeRefId]
    ensures likeRefId in properties && properties[likeRefId].propertyStatus == Active ==>
              var t := Toggle(ledger, Like(memberId, likeRefId, PropertyGroup), insertFails);
              && (r.0.Ok? <==> t.0.Ok?)
              && (t.0.Err? ==> r.0 == Err(t.0.message))
  {
    if !(likeRefId in properties && properties[likeRefId].propertyStatus == Active) then
      (Err(NoDataFound), properties, ledger)
    else
      var (modifier, ledger') := Toggle(ledger, Like(memberId, likeRefId, PropertyGroup), insertFails);
      if modifier.Err? then (Err(modifier.message), properties, ledger)
      else
        var properties' := PropertyStatsEdited(properties, likeRefId, "propertyLikes", modifier.value);
        (Ok(properties'[likeRefId]), properties', ledger')
  }

  /** Every listing's `propertyLikes` equals the number of ledger records
      that refer to it. */
  ghost predicate LikesAgree(properties: map<Id, Property>, ledger: seq<Like>)
  {
    forall k :: k in properties ==> Stat(properties[k].stats, "propertyLikes") == CountRef(ledger, k)
  }

  /** A successful like action moves the target's `propertyLikes` by the
      toggle's modifier (+1 for a like, -1 for an unlike) and leaves every
      other listing and statistic alone. */
  lemma LikeTargetCounts(properties: map<Id, Property>, ledger: seq<Like>, memberId: Id, likeRefId: Id, insertFails: bool)
    requires LikeTarget(properties, ledger, memberId, likeRefId, insertFails).0.Ok?
    ensures var r := LikeTarget(properties, ledger, memberId, likeRefId, insertFails);
            var t := Toggle(ledger, Like(memberId, likeRefId, PropertyGroup), insertFails);
            && t.0.Ok? && r.2 == t.1
            && Stat(r.1[likeRefId].stats, "propertyLikes") == Stat(properties[likeRefId].stats, "propertyLikes") + t.0.value
            && (forall k :: k in properties && k != likeRefId ==> r.1[k] == properties[k])
            && (forall key :: key != "propertyLikes" ==> Stat(r.1[likeRefId].stats, key) == Stat(properties[likeRefId].stats, key))
            && r.1[likeRefId].(stats := properties[likeRefId].stats) == properties[likeRefId]
  {
  }

  /** The like action keeps the counters in agreement with the ledger. */
  lemma {:induction false} LikeTargetKeepsAgreement(properties: map<Id, Property>, ledger: seq<Like>, memberId: Id, likeRefId: Id, insertFails: bool)
    requires LikesAgree(properties, ledger)
    ensures var r := LikeTarget(properties, ledger, memberId, likeRefId, insertFails);
            LikesAgree(r.1, r.2)
  {
    var r := LikeTarget(properties, ledger, memberId, likeRefId, insertFails);
    if r.0.Ok? {
      var input := Like(memberId, likeRefId, PropertyGroup);
      forall k | k in r.1 ensures Stat(r.1[k].stats, "propertyLikes") == CountRef(r.2, k) {
        ToggleCounts(ledger, input, insertFails, k);
      }
    }
  }

  /** The view counter after a view: `propertyViews` is one higher when the
      view counts, and nothing else changes. */
  function PropertyViewed(p: Property, counts: bool): (r: Property)
    ensures Stat(r.stats, "propertyViews") == Stat(p.stats, "propertyViews") + (if counts then 1 else 0)
    ensures forall k :: k != "propertyViews" ==> Stat(r.stats, k) == Stat(p.stats, k)
    ensures r.(stats := p.stats) == p
  {
    if counts then p.(stats := Inc(p.stats, "propertyViews", 1)) else p
  }

  /** A listing with its owner attached, as `getProperty` returns it. */
  datatype PropertyDetail = PropertyDetail(property: Property, memberData: Members.Member)

  class PropertyService {
    var properties: map<Id, Property>
    const memberService: Members.MemberService
    const likeService: LikeService

    /** Every document is stored under its own id, and so is every member. */
    ghost predicate Valid()
      reads this, memberService
    {
      && (forall k :: k in properties ==> properties[k].id == k)
      && memberService.Valid()
    }

    constructor (memberService: Members.MemberService, likeService: LikeService)
      requires memberService.Valid()
      ensures Valid() && properties == map[]
      ensures this.memberService == memberService && this.likeService == likeService
    {
      properties := map[];
      this.memberService := memberService;
      this.likeService := likeService;
    }

    /** Stores the new listing under the fresh id and adds one to its
        owner's "memberProperties" counter; a rejected insert raises
        CREATE_FAILED and changes nothing. */
    method CreateProperty(input: PropertyInput, newId: Id, now: int, createFails: bool) returns (r: Result<Property>)
      requires Valid() && newId !in properties
      modifies this, memberService
      ensures Valid()
      ensures createFails ==> r == Err(CreateFailed) && properties == old(properties)
                              && memberService.members == old(memberService.members)
      ensures !createFails ==> && r == Ok(Created(newId, input, now))
                               && properties == old(properties)[newId := r.value]
                               && memberService.members
                                  == Members.MemberStatsEdited(old(memberService.members), input.memberId, "memberProperties", 1)
    {
      if createFails {
        return Err(CreateFailed);
      }
      var result := Created(newId, input, now);
      properties := properties[newId := result];
      var _ := memberService.MemberStatsEditor(result.memberId, "memberProperties", 1);
      r := Ok(result);
    }

    /** Finds an active listing; when a viewer is given and the view service
        reports a new view (`newView`), raises `propertyViews` by one in the
        store and in the returned copy; then attaches the owner, which fails
        with NO_DATA_FOUND when the owner is neither active nor blocked (the
        view is counted already). */
    method GetProperty(viewer: Option<Id>, propertyId: Id, newView: bool) returns (r: Result<PropertyDetail>)
      requires Valid()
      modifies this, memberService
      ensures Valid()
      ensures memberService.members == old(memberService.members)
      ensures !(propertyId in old(properties) && old(properties)[propertyId].propertyStatus == Active) ==>
                r == Err(NoDataFound) && properties == old(properties)
      ensures propertyId in old(properties) && old(properties)[propertyId].propertyStatus == Active ==>
                var target := PropertyViewed(old(properties)[propertyId], viewer.Some? && newView);
                var owner := target.memberId;
                && properties == old(properties)[propertyId := target]
                && (r.Ok? <==> owner in memberService.members && Members.Visible(memberService.members[owner]))
                && (r.Ok? ==> r.value == PropertyDetail(target, memberService.members[owner]))
                && (r.Err? ==> r.message == NoDataFound)
    {
      if !(propertyId in properties && properties[propertyId].propertyStatus == Active) {
        return Err(NoDataFound);
      }
      var targetProperty := properties[propertyId];
      if viewer.Some? {
        if newView {
          var _ := PropertyStatsEditor(propertyId, "propertyViews", 1);
          targetProperty := targetProperty.(stats := Inc(targetProperty.stats, "propertyViews", 1));
        }
      }
      var memberData := memberService.GetMember(None, targetProperty.memberId, false);
      if memberData.Err? {
        return Err(memberData.message);
      }
      r := Ok(PropertyDetail(targetProperty, memberData.value));
    }

    /** Applies the update to the listing with the input's id, provided the
        caller owns it and it is active; otherwise raises UPDATE_FAILED and
        changes nothing. A retiring update (`Retires`) takes one from the
        caller's "memberProperties" counter. */
    method UpdateProperty(memberId: Id, input: PropertyUpdate) returns (r: Result<Property>)
      requires Valid()
      modifies this, memberService
      ensures Valid()
      ensures var found := input.id in old(properties) && old(properties)[input.id].memberId == memberId
                           && old(properties)[input.id].propertyStatus == Active;
              && (!found ==> r == Err(UpdateFailed) && properties == old(properties)
                             && memberService.members == old(memberService.members))
              && (found ==> && r == Ok(Applied(old(properties)[input.id], input))
                            && properties == old(properties)[input.id := r.value]
                            && memberService.members
                               == if Retires(input)
                                  then Members.MemberStatsEdited(old(memberService.members), memberId, "memberProperties", -1)
                                  else old(memberService.members))
    {
      if !(input.id in properties && properties[input.id].memberId == memberId
           && properties[input.id].propertyStatus == Active) {
        return Err(UpdateFailed);
      }
      var result := Applied(properties[input.id], input);
      properties := properties[input.id := result];
      if Retires(input) {
        var _ := memberService.MemberStatsEditor(memberId, "memberProperties", -1);
      }
      r := Ok(result);
    }

    /** The admin update: any active listing with the input's id; a retiring
        update takes one from the owner's counter. */
    method UpdatePropertyByAdmin(input: PropertyUpdate) returns (r: Result<Property>)
      requires Valid()
      modifies this, memberService
      ensures Valid()
      ensures var found := input.id in old(properties) && old(properties)[input.id].propertyStatus == Active;
              && (!found ==> r == Err(UpdateFailed) && properties == old(properties)
                             && memberService.members == old(memberService.members))
              && (found ==> && r == Ok(Applied(old(properties)[input.id], input))
                            && properties == old(properties)[input.id := r.value]
                            && memberService.members
                               == if Retires(input)
                                  then Members.MemberStatsEdited(old(memberService.members), r.value.memberId, "memberProperties", -1)
                                  else old(memberService.members))
    {
      if !(input.id in properties && properties[input.id].propertyStatus == Active) {
        return Err(UpdateFailed);
      }
      var result := Applied(properties[input.id], input);
      properties := properties[input.id := result];
      if Retires(input) {
        var _ := memberService.MemberStatsEditor(result.memberId, "memberProperties", -1);
      }
      r := Ok(result);
    }

    /** Deletes a listing whose status is DELETE; any other listing, or a
        missing id, raises REMOVE_FAILED. */
    method RemovePropertyByAdmin(propertyId: Id) returns (r: Result<Property>)
      requires Valid()
      modifies this
      ensures Valid()
      ensures var found := propertyId in old(properties) && old(properties)[propertyId].propertyStatus == Delete;
              && (!found ==> r == Err(RemoveFailed) && properties == old(properties))
              && (found ==> r == Ok(old(properties)[propertyId]) && properties == old(properties) - {propertyId})
    {
      if !(propertyId in properties && properties[propertyId].propertyStatus == Delete) {
        return Err(RemoveFailed);
      }
      r := Ok(properties[propertyId]);
      properties := properties - {propertyId};
    }

    /** `$inc` of one statistic of one listing; the updated listing, or
        nothing when no listing has the id. */
    method PropertyStatsEditor(id: Id, targetKey: string, modifier: int) returns (r: Option<Property>)
      requires Valid()
      modifies this
      ensures Valid()
      ensures properties == PropertyStatsEdited(old(properties), id, targetKey, modifier)
      ensures r == if id in properties then Some(properties[id]) else None
    {
      if id !in properties {
        return None;
      }
      properties := properties[id := properties[id].(stats := Inc(properties[id].stats, targetKey, modifier))];
      r := Some(properties[id]);
    }

    /** Toggles the caller's like on an active listing and feeds the
        modifier into its `propertyLikes`. */
    method LikeTargetProperty(memberId: Id, likeRefId: Id, insertFails: bool) returns (r: Result<Property>)
      requires Valid()
      modifies this, likeService
      ensures Valid()
      ensures (r, properties, likeService.likes) == LikeTarget(old(properties), old(likeService.likes), memberId, likeRefId, insertFails)
    {
      if !(likeRefId in properties && properties[likeRefId].propertyStatus == Active) {
        return Err(NoDataFound);
      }
      var input := Like(memberId, likeRefId, PropertyGroup);
      var modifier := likeService.ToggleLike(input, insertFails);
      if modifier.Err? {
        return Err(modifier.message);
      }
      var result := PropertyStatsEditor(likeRefId, "propertyLikes", modifier.value);
      r := if result.Some? then Ok(result.value) else Err(SomethingWentWrong);
    }

    /** Active listings the search accepts, sorted (default: `createdAt`
        descending) and paginated. The facet always yields its one
        document, so the emptiness check never fires. */
    method GetProperties(input: Inquiry<PropertyField, PropertiesSearch>, regex: Regex)
      returns (r: Result<Facet<Property>>, ghost arranged: seq<Property>)
      requires Valid() && input.page >= 1 && input.limit >= 1
      ensures var listed := ListedProperties(properties, input.search, regex);
              && r.Ok?
              && (forall p :: p in arranged <==> p in listed)
              && NoDup(arranged) && |arranged| == |listed|
              && SortedBy(arranged, PropertyKey(SortField(input.sort, CreatedAtField)), SortDirection(input.direction))
              && r.value.list == Window(arranged, input.page, input.limit)
              && r.value.metaCounter == Counter(|listed|)
    {
      var match_ := ShapeMatchQuery(ActiveMatch, input.search);
      ShapedListed(properties, match_, input.search, regex);
      var result;
      result, arranged := Aggregate(properties, PropertyFilter(match_, regex), PropertyKey(SortField(input.sort, CreatedAtField)),
                                    SortDirection(input.direction), input.page, input.limit);
      r := Ok(result);
    }

    /** The agent's own listings: a requested DELETE status is refused with
        NOT_ALLOWED_REQUEST; otherwise the requested status, or every status
        but DELETE. */
    method GetAgentProperties(memberId: Id, input: Inquiry<PropertyField, AgentPropertiesSearch>)
      returns (r: Result<Facet<Property>>, ghost arranged: seq<Property>)
      requires Valid() && input.page >= 1 && input.limit >= 1
      ensures input.search.propertyStatus == Some(Delete) <==> r == Err(NotAllowedRequest)
      ensures r.Ok? <==> input.search.propertyStatus != Some(Delete)
      ensures r.Ok? ==>
                var listed := AgentProperties(properties, memberId, input.search);
                && (forall p :: p in arranged <==> p in listed)
                && NoDup(arranged) && |arranged| == |listed|
                && SortedBy(arranged, PropertyKey(SortField(input.sort, CreatedAtField)), SortDirection(input.direction))
                && r.value.list == Window(arranged, input.page, input.limit)
                && r.value.metaCounter == Counter(|listed|)
    {
      if input.search.propertyStatus == Some(Delete) {
        return Err(NotAllowedRequest), [];
      }
      AgentListed(properties, memberId, input.search, (a, b) => false);
      var result;
      result, arranged := Aggregate(properties, PropertyFilter(AgentMatch(memberId, input.search), (a, b) => false),
                                    PropertyKey(SortField(input.sort, CreatedAtField)),
                                    SortDirection(input.direction), input.page, input.limit);
      r := Ok(result);
    }

    /** Every listing, or those of the supplied status and locations, sorted
        and paginated. */
    method GetAllPropertiesByAdmin(input: Inquiry<PropertyField, AllPropertiesSearch>)
      returns (r: Result<Facet<Property>>, ghost arranged: seq<Property>)
      requires Valid() && input.page >= 1 && input.limit >= 1
      ensures var listed := AdminProperties(properties, input.search);
              && r.Ok?
              && (forall p :: p in arranged <==> p in listed)
              && NoDup(arranged) && |arranged| == |listed|
              && SortedBy(arranged, PropertyKey(SortField(input.sort, CreatedAtField)), SortDirection(input.direction))
              && r.value.list == Window(arranged, input.page, input.limit)
              && r.value.metaCounter == Counter(|listed|)
    {
      var match_ := AdminMatch(input.search);
      AdminListed(properties, match_, input.search, (a, b) => false);
      var result;
      result, arranged := Aggregate(properties, PropertyFilter(match_, (a, b) => false),
                                    PropertyKey(SortField(input.sort, CreatedAtField)),
                                    SortDirection(input.direction), input.page, input.limit);
      r := Ok(result);
    }
  }
}
