# nestar services — a Dafny model

This project models the core of the nestar real-estate API: the like
toggle, the member service (login, profile updates, member views, the agent
and admin member lists) and the property service (creating, viewing,
updating and removing listings, the like action on a listing, the
statistics editor, and the three paginated property lists with the
search-to-match shaping they share).

The document store is modelled on values. A collection is a `map` from id to
document, held in a field of the service class that owns it. The like ledger
is a `seq` in the store's natural order. Denormalised counters
(`propertyLikes`, `propertyViews`, `memberViews`, `memberProperties`, ...)
are a `map<string, int>` per document, and `$inc` is `Counters.Inc`. A list
query is a match object, a numeric sort key and the `$facet` window;
`Query.Aggregate` runs it over a collection by a key scan, a filter, an
insertion sort and the window.

Modules:

- `Common` holds ids, `Option`, `Result` and the error messages.
- `Counters` holds the statistic fields and `$inc`.
- `Query` holds constraint kinds, `$match`, `$sort`, `$skip`/`$limit` and `$count`.
- `Likes` holds the ledger, the toggle and `LikeService`.
- `Members` holds members and `MemberService`.
- `Properties` holds listings, the search shaping and `PropertyService`.

Outside calls are parameters of the operation:

- whether the view service records a new view (`newView`);
- whether the store rejects an insert (`insertFails`, `createFails`);
- the password comparison (`comparePassword`);
- the regular-expression engine (`regex`);
- fresh ids and the creation time (`newId`, `now`).

Behaviour of the code worth noting:

- `getProperties`, `getAgentProperties` and `getAllPropertiesByAdmin`
  never raise NO_DATA_FOUND for an empty result. Their check is
  `!result.length`, and a `$facet` stage always yields exactly one document.
  Only `getAgents` tests the counter facet and raises when nothing matches.
- The like lookup key is `{memberId, likeRefId}`: the like group is not part
  of it (`Likes.ToggleIgnoresGroup`).
- In `updateProperty` and `updatePropertyByAdmin`, the timestamps computed
  for SOLD and DELETE are only local variables. The document receives the
  input as sent, so a computed timestamp never reaches it
  (`Properties.SoldAtNotWritten`). The computed timestamp still triggers the
  owner's counter decrement.
- The property counter is incremented under the key "memberProperties",
  while the member record's field is `memberProperty`
  (`Members.PropertyCountKey`).

## Model

| member | source | states |
|---|---|---|
| `Likes.FirstMatch` | apps/nestar-api/src/components/like/like.service.ts:16-17 | the record `findOne({memberId, likeRefId})` finds is the first one in ledger order with the same member and target; none is found exactly when no record has that key |
| `Likes.Toggle` | apps/nestar-api/src/components/like/like.service.ts:15-36 | -1 exactly when a record for the (member, target) pair exists, and the ledger then loses exactly the first such record in ledger order, the rest kept in order; +1 exactly when none exists and the insert succeeds, with the input appended; otherwise CREATE_FAILED with the ledger unchanged |
| `Likes.LikeService.ToggleLike` | apps/nestar-api/src/components/like/like.service.ts:15-36 | the loop-based lookup, delete or insert returns the modifier and leaves the ledger exactly as `Toggle` specifies |
| `Likes.ToggleKeepsOthers` | apps/nestar-api/src/components/like/like.service.ts:16-31 | records of every other (member, target) pair stay in the ledger, in the same order |
| `Likes.ToggleCounts` | apps/nestar-api/src/components/like/like.service.ts:18-35 | after a successful toggle, the number of records referring to the target moves by exactly the returned modifier; every other target's count is unchanged |
| `Likes.ToggleTwice` | apps/nestar-api/src/components/like/like.service.ts:20-31 | a like followed by an unlike of a pair with no record returns +1 then -1 and restores the ledger |
| `Likes.ToggleIgnoresGroup` | apps/nestar-api/src/components/like/like.service.ts:16 | two inputs that differ only in the like group get the same outcome, and the same ledger after an unlike |
| `Likes.ToggleKeepsKeyUnique` | apps/nestar-api/src/components/like/like.service.ts:16-31 | a ledger with at most one record per pair keeps that property, and after an unlike no record for the pair is left |
| `Counters.Inc` | apps/nestar-api/src/components/property/property.service.ts:340 | `$inc` adds the signed modifier to the one named field (a missing field reads as 0 and is created); every other field is unchanged |
| `Counters.IncAdditive` | apps/nestar-api/src/components/property/property.service.ts:340 | two increments of one field are one increment by their sum |
| `Counters.IncUndo` | apps/nestar-api/src/components/property/property.service.ts:340 | an increment followed by the opposite increment leaves every field reading as before |
| `Query.Texts` | apps/nestar-api/src/components/property/property.service.ts:176 | a text list as an `$in` operand holds exactly the listed texts |
| `Query.Ints` | apps/nestar-api/src/components/property/property.service.ts:177-178 | an integer list as an `$in` operand holds exactly the listed numbers |
| `Query.Insert` | apps/nestar-api/src/components/property/property.service.ts:137 | inserting into the sorted run adds exactly the one element (multiset) |
| `Query.SortBy` | apps/nestar-api/src/components/property/property.service.ts:137 | `$sort` is a permutation of the matched documents |
| `Query.InsertSorted` | apps/nestar-api/src/components/property/property.service.ts:137 | inserting into a sorted run keeps it sorted in the requested direction |
| `Query.SortBySorted` | apps/nestar-api/src/components/property/property.service.ts:137 | the `$sort` output is ordered by the key in the requested direction, missing keys lowest |
| `Query.Filter` | apps/nestar-api/src/components/property/property.service.ts:136 | `$match` keeps exactly the scanned documents the filter accepts, and no extra copies |
| `Query.FilterCount` | apps/nestar-api/src/components/property/property.service.ts:147 | over a duplicate-free scan, the number of matched documents is the size of the match set |
| `Query.SortField` | apps/nestar-api/src/components/property/property.service.ts:130 | the sort field is the requested one, or `createdAt` (the default passed in) when none is requested |
| `Query.SortDirection` | apps/nestar-api/src/components/property/property.service.ts:130 | the sort direction is the requested one, or descending when none is requested |
| `Query.Window` | apps/nestar-api/src/components/property/property.service.ts:141-142 | `$skip: (page-1)*limit, $limit: limit` returns `min(limit, total - skip)` documents (none past the end), the i-th being the sorted set's `skip + i`-th |
| `Query.Counter` | apps/nestar-api/src/components/property/property.service.ts:147 | `$count` yields no document when nothing matched, and otherwise one holding the total |
| `Query.ScanKeys` | apps/nestar-api/src/components/property/property.service.ts:134-136 | the collection scan visits every id exactly once |
| `Query.Aggregate` | apps/nestar-api/src/components/property/property.service.ts:134-151 | the page is the window of one sorted, duplicate-free arrangement of exactly the match set, and the counter counts the whole match set, not the page |
| `Members.Updated` | apps/nestar-api/src/components/member/member.service.ts:60-66 | `findOneAndUpdate` with the input writes each of the eight supplied profile fields and keeps every unsupplied one, as well as id, statistics, creation time and description; an input that supplies nothing changes nothing |
| `Members.LoginCheck` | apps/nestar-api/src/components/member/member.service.ts:42-51 | NO_MEMBER_NICK iff no member or a deleted one; BLOCKED_USER iff blocked; WRONG_PASSWORD iff active with a wrong password; success iff active with a matching password, returning that member |
| `Members.MemberService.Login` | apps/nestar-api/src/components/member/member.service.ts:35-55 | the result is `LoginCheck` of what the nick lookup finds (a stored member with that nick, or nothing exactly when no member has it), so success, NO_MEMBER_NICK, BLOCKED_USER and WRONG_PASSWORD each occur exactly in their case; an unknown nick fails with NO_MEMBER_NICK, and success returns a stored active member with that nick and a matching password |
| `Members.MemberService.UpdateMember` | apps/nestar-api/src/components/member/member.service.ts:57-72 | an active member gets the update, stored and returned; any other id raises UPDATE_FAILED and changes nothing |
| `Members.MemberService.UpdateMemberByAdmin` | apps/nestar-api/src/components/member/member.service.ts:183-187 | any existing member gets the update, whatever its status; a missing id raises UPDATE_FAILED and changes nothing |
| `Members.Viewed` | apps/nestar-api/src/components/member/member.service.ts:90-96 | a counted view raises `memberViews` by one and changes nothing else |
| `Members.MemberService.GetMember` | apps/nestar-api/src/components/member/member.service.ts:74-100 | only active or blocked members are found (else NO_DATA_FOUND, nothing changed); a new view by a given viewer raises `memberViews` in the store and in the returned copy |
| `Members.MemberStatsEdited` | apps/nestar-api/src/components/property/property.service.ts:46-50 | `$inc` on one member's statistic changes that statistic by the modifier and nothing else in the collection; a missing id changes nothing |
| `Members.MemberService.MemberStatsEditor` | apps/nestar-api/src/components/property/property.service.ts:115-119 | the collection becomes `MemberStatsEdited`, and the updated member is returned, or nothing for a missing id |
| `Members.AgentMatch` | apps/nestar-api/src/components/member/member.service.ts:105-110 | the agent match holds type AGENT, status ACTIVE and, for a non-empty text, the nick pattern, and nothing else |
| `Members.AgentMatchMeaning` | apps/nestar-api/src/components/member/member.service.ts:105-110 | a member satisfies the agent match exactly when it is an active agent whose nick matches a given non-empty text |
| `Members.AgentsListed` | apps/nestar-api/src/components/member/member.service.ts:118-121 | the documents the agent match selects are exactly the listed agents |
| `Members.MemberService.GetAgents` | apps/nestar-api/src/components/member/member.service.ts:102-140 | NO_DATA_FOUND exactly when no agent is listed; otherwise the page is the window of a sorted arrangement (default `createdAt` descending) of exactly the listed agents, and the counter is their number |
| `Members.AdminMatch` | apps/nestar-api/src/components/member/member.service.ts:146-154 | the admin match holds one equality per supplied status and type and the nick pattern for a non-empty text, and nothing else |
| `Members.AdminMatchMeaning` | apps/nestar-api/src/components/member/member.service.ts:151-154 | a member satisfies the admin match exactly when every supplied filter holds |
| `Members.AdminListed` | apps/nestar-api/src/components/member/member.service.ts:159-162 | the documents the admin match selects are exactly the members the filters accept |
| `Members.MemberService.GetAllMembersByAdmin` | apps/nestar-api/src/components/member/member.service.ts:142-181 | always succeeds; the page is the window of a sorted arrangement of exactly the accepted members, and the counter counts all of them (empty when none) |
| `Members.PropertyCountKey` | apps/nestar-api/src/components/property/property.service.ts:46-50 | adjusting "memberProperties" never moves the member's `memberProperty` statistic |
| `Properties.ShapeListFilters` | apps/nestar-api/src/components/property/property.service.ts:175-179 | each supplied owner or list filter replaces its field's constraint (owner equality, `$in`); the other fields are kept |
| `Properties.ShapeRangeFilters` | apps/nestar-api/src/components/property/property.service.ts:181-183 | each supplied price, period or square range replaces its field's constraint by the inclusive range; the other fields are kept |
| `Properties.ShapeMatchQuery` | apps/nestar-api/src/components/property/property.service.ts:161-187 | every supplied filter is written over its field, a non-empty text becomes the title pattern, the options become the `$or` group, and an unsupplied filter leaves the field as it was |
| `Properties.FlagMeaning` | apps/nestar-api/src/components/property/property.service.ts:186 | an `$or` entry `{[ele]: true}` holds exactly when it names a flag (barter, rent) the property has set |
| `Properties.ListFiltersMeaning` | apps/nestar-api/src/components/property/property.service.ts:175-179 | the shaped owner and list constraints hold exactly when the owner matches and each field is among the listed values |
| `Properties.RangeFiltersMeaning` | apps/nestar-api/src/components/property/property.service.ts:181-183 | the shaped range constraints hold exactly when each field lies within its inclusive range |
| `Properties.OptionsMeaning` | apps/nestar-api/src/components/property/property.service.ts:186 | the `$or` group holds exactly when one of the listed options is a flag the property has set |
| `Properties.ShapedMatchMeaning` | apps/nestar-api/src/components/property/property.service.ts:129-132 | the shaped `getProperties` match holds on a listing exactly when it is ACTIVE and every supplied filter accepts it |
| `Properties.ShapedListed` | apps/nestar-api/src/components/property/property.service.ts:134-136 | the documents the shaped match selects are exactly the active listings the search accepts |
| `Properties.PropertyService.GetProperties` | apps/nestar-api/src/components/property/property.service.ts:128-156 | always succeeds; the page is the window of a sorted arrangement (default `createdAt` descending) of exactly the active listings the search accepts, and the counter counts all of them |
| `Properties.AgentMatch` | apps/nestar-api/src/components/property/property.service.ts:206-209 | the `getAgentProperties` match holds the owner equality and the requested status equality, or `$ne: DELETE` when none is requested, and constrains no other field |
| `Properties.AgentMatchMeaning` | apps/nestar-api/src/components/property/property.service.ts:206-209 | a listing satisfies the agent match exactly when the agent owns it and it has the requested status or, with none requested, any status but DELETE |
| `Properties.AgentListed` | apps/nestar-api/src/components/property/property.service.ts:212-214 | the documents the agent match selects are exactly the agent's listings of that status |
| `Properties.PropertyService.GetAgentProperties` | apps/nestar-api/src/components/property/property.service.ts:201-233 | NOT_ALLOWED_REQUEST exactly when status DELETE is requested; otherwise the page is the window of a sorted arrangement of exactly the agent's listings, and the counter counts them |
| `Properties.AdminMatch` | apps/nestar-api/src/components/property/property.service.ts:263-268 | the admin match written from `{}` holds on a listing exactly when it has the supplied status and lies in the supplied locations |
| `Properties.AdminMatchMeaning` | apps/nestar-api/src/components/property/property.service.ts:267-268 | a match holding only the supplied status equality and location `$in` selects exactly the listings those filters accept |
| `Properties.AdminListed` | apps/nestar-api/src/components/property/property.service.ts:270-273 | the documents the admin match selects are exactly the listings the filters accept |
| `Properties.PropertyService.GetAllPropertiesByAdmin` | apps/nestar-api/src/components/property/property.service.ts:262-291 | always succeeds; the page is the window of a sorted arrangement of exactly the accepted listings, and the counter counts them |
| `Properties.Applied` | apps/nestar-api/src/components/property/property.service.ts:110 | the update writes each supplied field (type, status, location, address, title, price, square, beds, rooms, barter, rent) and keeps each unsupplied one; it keeps id, owner, statistics and creation time, writes `soldAt`/`deletedAt` only when the caller supplied them, and an update supplying nothing changes nothing |
| `Properties.RetiresMeaning` | apps/nestar-api/src/components/property/property.service.ts:98-114 | after the status branch puts the current time in `soldAt` (SOLD) or `deletedAt` (DELETE), the truthiness test on `soldAt` or `deletedAt` holds exactly when the status is SOLD or DELETE or the caller supplied a timestamp |
| `Properties.SoldAtNotWritten` | apps/nestar-api/src/components/property/property.service.ts:107-114 | marking a listing SOLD without a timestamp triggers the decrement but leaves the stored `soldAt` as it was |
| `Properties.OwnerCountRoundTrip` | apps/nestar-api/src/components/property/property.service.ts:46-50 | the +1 of a create and the -1 of a retiring update cancel on every statistic of every member |
| `Properties.Created` | apps/nestar-api/src/components/property/property.service.ts:43 | the stored document has the fresh id, the input's owner and fields, status ACTIVE and every statistic 0 (the assumed schema defaults), no `soldAt` or `deletedAt`, and the creation time |
| `Properties.PropertyService.CreateProperty` | apps/nestar-api/src/components/property/property.service.ts:41-57 | the new ACTIVE listing is stored under the fresh id and the owner's "memberProperties" rises by one; a rejected insert raises CREATE_FAILED and changes nothing |
| `Properties.PropertyViewed` | apps/nestar-api/src/components/property/property.service.ts:76-79 | a counted view raises `propertyViews` by one and changes nothing else |
| `Properties.PropertyService.GetProperty` | apps/nestar-api/src/components/property/property.service.ts:62-92 | a missing or inactive listing raises NO_DATA_FOUND and changes nothing; otherwise a new view by a given viewer is counted in the store and the copy, and the result succeeds exactly when the owner is active or blocked, carrying that owner |
| `Properties.PropertyService.UpdateProperty` | apps/nestar-api/src/components/property/property.service.ts:97-123 | only the caller's own ACTIVE listing is updated (else UPDATE_FAILED, nothing changed); a SOLD or DELETE status, or a supplied timestamp, takes one from the caller's "memberProperties" |
| `Properties.PropertyService.UpdatePropertyByAdmin` | apps/nestar-api/src/components/property/property.service.ts:296-319 | any ACTIVE listing is updated (else UPDATE_FAILED); a retiring update takes one from the owner's counter |
| `Properties.PropertyService.RemovePropertyByAdmin` | apps/nestar-api/src/components/property/property.service.ts:324-330 | only a listing whose status is DELETE is removed and returned; anything else raises REMOVE_FAILED and changes nothing |
| `Properties.PropertyStatsEdited` | apps/nestar-api/src/components/property/property.service.ts:335-344 | `$inc` on one listing's statistic changes that statistic by the modifier and nothing else; a missing id changes nothing |
| `Properties.PropertyService.PropertyStatsEditor` | apps/nestar-api/src/components/property/property.service.ts:335-344 | the collection becomes `PropertyStatsEdited`, and the updated listing is returned, or nothing for a missing id |
| `Properties.LikeTarget` | apps/nestar-api/src/components/property/property.service.ts:238-257 | a missing or inactive listing raises NO_DATA_FOUND; for an active one the action succeeds exactly when the toggle does, and a failing toggle's error is raised; any failure changes neither listings nor ledger; success returns the stored, updated listing |
| `Properties.LikeTargetCounts` | apps/nestar-api/src/components/property/property.service.ts:251-252 | a successful like action moves the target's `propertyLikes` by the toggle's modifier and leaves every other listing, every other statistic and every non-statistic field of the target alone |
| `Properties.LikeTargetKeepsAgreement` | apps/nestar-api/src/components/property/property.service.ts:238-257 | when every listing's `propertyLikes` equals the number of ledger records referring to it, the like action keeps that agreement |
| `Properties.PropertyService.LikeTargetProperty` | apps/nestar-api/src/components/property/property.service.ts:238-257 | the result, the listings and the like ledger afterwards are exactly those of `LikeTarget` |

## Left out

- The regular-expression engine: `new RegExp(text, 'i')` is the parameter `regex`. Case folding and pattern syntax are not modelled.
- Authentication is not modelled: password hashing, `comparePassword` (a parameter) and `createToken` (tokens are not part of a member).
- The view service is not modelled. `recordView` is the boolean `newView`.
- `Properties.PropertyService.GetProperty`: `checkLikeExistence` is not defined in like.service.ts, yet property.service.ts calls it on the like service at line 87. As written, `getProperty` with a member id fails there, at build time or at run time, after a new view has already been counted at line 77. The model does not capture that failure: it assumes a lookup with no side effect whose answer only sets `meLiked`, which is not part of the returned listing. The `meLiked` lookups of the list queries are not modelled either.
- `getFavorites` and `getVisited` are not modelled. They delegate to the like and view services.
- `signup` is not modelled.
- The `$lookup`/`$unwind` stages that attach `memberData` and `meLiked` to list items are not modelled. The list is the window of property documents.
- Concurrency is not modelled. Each operation is one atomic step on the collections.
- Logging is not modelled.
- The property schema is not part of this model. `Properties.Created` assumes its defaults: a new listing has status ACTIVE and every statistic (`propertyViews`, `propertyLikes`, ...) at 0. Schema validation and the DTO field checks are not modelled; enumerations are stored by name.
- Sorting on a non-numeric field is not modelled. Text and id fields sort as if missing, below every number.
- An empty `options` list gives `$or: []`, which the store rejects. The model treats it as a `$or` group nothing satisfies.
- The member schema is not part of this model. The model assumes it declares a `memberProperties` counter, so the `$inc` of "memberProperties" lands on that key, apart from the DTO's `memberProperty` (member.ts:41). It also assumes the schema declares no `memberDesx`, so that key in a member update is dropped and the description is kept. A strict schema that followed the DTO would instead drop the "memberProperties" increment as well.
- `memberStatsEditor` is not defined in member.service.ts, yet property.service.ts calls it at lines 46, 115 and 311. As written, each call fails, at build time or at run time. In `createProperty` the run-time failure is caught after the listing is stored and raises CREATE_FAILED. In `updateProperty` and `updatePropertyByAdmin` the update stands and the call throws. The model does not capture these failures: it assumes a `memberStatsEditor` that performs the same `$inc` as `propertyStatsEditor` (`Members.MemberStatsEdited`).
- Non-positive page and limit are not modelled. The list operations require `page >= 1` and `limit >= 1`, because the store rejects a negative `$skip` and a non-positive `$limit`.
- The immutability of `_id` is not checked. An update input's id only selects the document.
