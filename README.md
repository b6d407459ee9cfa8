# gbans: lobbies, server statistics, report, wiki, profile and ban-list rules

gbans is a ban manager and community site for Team Fortress 2 servers: a Go
back end with a websocket server, and a React front end. This project
models, in Dafny, the rules the code states in a few places:

- **Pick-up-game lobbies** (`PugLobbies`, `pug_lobby.dfy`). A lobby has a
  leader, a list of client connections and a chat log. Clients join, leave,
  are promoted and send messages. The join, leave and message requests go
  through the connection manager. An empty lobby is dropped. Lobbies,
  clients and the manager are classes whose methods update their fields in
  place. Apart from that, the module gives a small model of the lobby's
  read-write lock as one goroutine uses it.
- **Server statistics and polling** (`Servers`, `servers.dfy`). This covers
  global usage and capacity, the grouping of servers by region, sorted region
  keys and per-region sums. The region grouping is a loop over a mutable
  map. The page's poll timer is a class.
- **The report view** (`ReportView`, `report_view.dfy`). This covers the
  current ban, derived as the last live entry of the subject's ban history.
  It also covers the ban heading, the default status, the moderator-only
  resolve controls and the page state updated by the report and
  ban-history requests.
- **The wiki page** (`Wiki`, `wiki_page.dfy`). This covers the effective
  slug, the rendered-body rule and which panel is shown. It also covers the
  load effect and the save handler, which mutates the page object it holds.
- **The profile page** (`Profiles`, `profile.dfy`). This covers the fetch
  lifecycle, the content gate and the four Steam status chips.
- **The ban list** (`Bans`, `bans.dfy`). This covers the reason and type code
  tables and the flattening of each `{ban, person}` pair of the list-bans
  response into one record.
- `Common` (`common.dfy`) holds the shared values: an option type, a
  request outcome (resolved value or rejection), flashes and permission
  levels. It also defines sequence removal (`Without`) and the no-duplicates
  predicate, with their lemmas.

Network calls are modelled as parameters: each request's outcome
(`Fetch<T>`: `Resolved(value)` or `Rejected(reason)`) is an argument of the
method that handles its settling. The same holds for the clock
(`config.Now()` and the timer's `now`), for the JSON decoder's verdict (an
`Option` that is `None` when the payload does not decode) and for the
client's current lobby. Each page's React state is a class with one field
for each piece of state the modelled rules read. An effect or a callback is
a method.

## Model

| member | source | states |
|---|---|---|
| PugLobbies.PugLobby.constructor | internal/app/web_ws_pug.go:26-37 | the creator is leader and sole client; the log is empty; the options are kept; the new lobby is appended to the creator's lobbies; no duplicates |
| PugLobbies.PugLobby.ClientCount | internal/app/web_ws_pug.go:39-43 | the count is the length of `Clients` and, under the no-duplicates invariant, the number of distinct clients |
| PugLobbies.PugLobby.Join | internal/app/web_ws_pug.go:51-73 | a member is refused with `ErrDuplicateClient` and nothing changes; otherwise the client is appended after the others, the lobby is appended to the client's lobbies, and a client that is now the only member becomes leader while in every other case the leader stays; no duplicates is preserved |
| PugLobbies.PugLobby.Promote | internal/app/web_ws_pug.go:75-80 | the client becomes leader; returns nil |
| PugLobbies.PugLobby.Leave | internal/app/web_ws_pug.go:82-100 | a non-member is refused with `ErrUnknownClient` and nothing changes; a member is removed (length drops by exactly one, the others keep their order), the lobby is removed from the client's lobbies, and the leader and log are untouched; no duplicates is preserved |
| PugLobbies.PugLobby.SendUserMessage | internal/app/web_ws_pug.go:106-116 | exactly one message, with the sender's user, the text and the time, is appended to the log |
| PugLobbies.WsClient.RemoveLobby | internal/app/web_ws_pug.go:98 | the lobby no longer appears in the client's list; the others keep their order |
| PugLobbies.ConnectionManager.FindLobby | internal/app/web_ws_pug.go:145-148 | a lobby is found iff its id is registered, and it is the registered one |
| PugLobbies.ConnectionManager.RemoveLobby | internal/app/web_ws_pug.go:131-135 | the id is unregistered; every other id keeps its lobby |
| PugLobbies.LeavePugLobby | internal/app/web_ws_pug.go:118-138 | an undecodable payload gives the decode error, a missing current lobby `ErrInvalidLobbyId`, a non-member `ErrUnknownClient`, none of them changing the manager; success iff all three pass; after success the client is removed, and the lobby's id is dropped from the manager exactly when it is left empty; the lobby's leader and log are always kept, and on every error its members and the client's lobbies are kept too |
| PugLobbies.JoinPugLobby | internal/app/web_ws_pug.go:139-153 | the decode error, the lookup error for an unregistered id, or the join's own outcome; success iff the payload decodes, the id is registered and the client is not yet a member, and then the client is appended to that lobby, and becomes its leader when it is now the only member (otherwise the leader stays); a member is refused with `ErrDuplicateClient` and nothing changes; the manager's map and every log are unchanged, and every other registered lobby keeps its members and leader |
| PugLobbies.SendPugUserMessage | internal/app/web_ws_pug.go:169-181 | `Invalid request` for an undecodable payload, `ErrInvalidLobbyId` without a current lobby; success iff both are present, and then exactly one message is added to the current lobby's log; the lobby's members and leader are always kept, so it stays free of duplicates |
| PugLobbies.Step | internal/app/web_ws_pug.go:51-53 | a write lock is taken only when no one holds the lock, and a read lock only when no writer does |
| PugLobbies.JoinAsWrittenDeadlocks | internal/app/web_ws_pug.go:39-116 | starting from a free lock, a join that makes the joiner leader blocks at its second `Lock`, and every other lobby call returns and leaves the lock free |
| PugLobbies.PairReleases | internal/app/web_ws_pug.go:39-43 | a write lock or a read lock taken and released on a free lobby by its own deferred unlock returns and leaves the lobby free |
| PugLobbies.JoinFixedReleases | internal/app/web_ws_pug.go:51-80 | with the leader set under the lock `join` already holds, every lobby call returns and leaves the lock free |
| PugLobbies.EmptyLobbyJoin | internal/app/web_ws_pug.go:26-99 | at the class level, a lobby whose creator has left can be joined, and the joiner then becomes leader. Through the handlers, `leavePugLobby` drops an emptied lobby at once, so such a lobby is reachable only in the window between `leave` and `removeLobby` (a concurrent join that found it) or from callers not shown |
| Bans.ReasonOfCode | frontend/src/api/bans.ts:11-24 | a number names a reason iff it is 1 to 12, and names the reason with that number |
| Bans.ReasonCodeRoundTrip | frontend/src/api/bans.ts:11-24 | every reason's number maps back to that reason |
| Bans.ReasonLabelsDistinct | frontend/src/api/bans.ts:26-39 | the labels of the twelve reasons are pairwise distinct |
| Bans.BanReasonsListContents | frontend/src/api/bans.ts:41-53 | the offered list has eleven entries, none repeated, and contains exactly the reasons other than BotHost |
| Bans.BanTypeOfCode | frontend/src/api/bans.ts:55-60 | a number names a ban type iff it is -1 to 2, and names the type with that number |
| Bans.BanTypeCodeRoundTrip | frontend/src/api/bans.ts:55-60 | every ban type's number maps back to that type |
| Bans.FlattenRoundTrip | frontend/src/api/bans.ts:88-166 | splitting a flattened record gives back the response element, except that the ban's `steam_id` is replaced by the player's; every record is the flattening of its own split |
| Bans.FlattenIdentifies | frontend/src/api/bans.ts:135-166 | two elements flatten to the same record iff they agree on the player and on every ban field except `steam_id` |
| Bans.FlattenAll | frontend/src/api/bans.ts:134-167 | one record per element, in the same order, each the flattening of its element |
| Bans.BansRequestBody | frontend/src/api/bans.ts:126-133 | the posted filter is the given one, or `{}` when none is given |
| Bans.ApiGetBansResult | frontend/src/api/bans.ts:126-168 | a null response gives no records; otherwise the records match the elements one for one, each with the player's `steam_id` and splitting back to its element |
| Servers.PlayerCount | frontend/src/page/Servers.tsx:39 | a server's player count is never negative |
| Servers.Slots | frontend/src/page/Servers.tsx:81 | a server's slot count is its `max_players` when that is present and non-zero; it is never zero |
| Servers.UsageCountsEveryPlayer | frontend/src/page/Servers.tsx:39 | global usage is non-negative, and it is zero iff every server has no players |
| Servers.CapacityIsTotal | frontend/src/page/Servers.tsx:38 | global capacity is the sum of 24 over the servers |
| Servers.TotalAppend | frontend/src/page/Servers.tsx:74-83 | a sum over two concatenated lists is the sum of the two sums |
| Servers.BucketMembers | frontend/src/page/Servers.tsx:40-46 | a server is in a region's bucket iff it is one of the servers and has that region |
| Servers.BucketOfAbsentRegion | frontend/src/page/Servers.tsx:40-46 | a region no server has gets an empty bucket |
| Servers.BucketAppend | frontend/src/page/Servers.tsx:40-46 | grouping keeps the servers' relative order inside each bucket |
| Servers.GroupByRegion | frontend/src/page/Servers.tsx:40-47 | the map's keys are exactly the servers' regions; each region maps to the servers of that region in their original order; the key list has no duplicates and holds exactly the map's keys |
| Servers.LexLeTotal | frontend/src/page/Servers.tsx:48 | any two keys are ordered one way or the other |
| Servers.Insert | frontend/src/page/Servers.tsx:48 | inserting into a sorted list keeps it sorted, adds exactly that key and keeps it free of duplicates |
| Servers.SortKeys | frontend/src/page/Servers.tsx:48 | the keys come out sorted ascending, as a permutation of the input, still without duplicates |
| Servers.RegionTotalSnoc | frontend/src/page/Servers.tsx:74-83 | appending a server adds its amount to the sum over distinct keys iff its region is one of them |
| Servers.RegionTotalEmpty | frontend/src/page/Servers.tsx:74-83 | the per-region sums of no servers are zero |
| Servers.RegionTotalConserved | frontend/src/page/Servers.tsx:39-83 | adding up a per-server amount region by region, over distinct keys that cover every region, gives its total over all servers |
| Servers.RegionCards | frontend/src/page/Servers.tsx:73-100 | one card per key, in key order |
| Servers.CardsAreRegionTotals | frontend/src/page/Servers.tsx:73-83 | the cards' pSums add up to the per-region total of player counts, and their pMaxes to that of slot counts |
| Servers.ServerStats | frontend/src/page/Servers.tsx:36-100 | capacity is 24 per server and usage the sum of player counts; one card per region, in strictly ascending key order; each card's pSum is its region's usage and its pMax its region's slot total; the pSums add up to the global usage and the pMaxes to the sum of slots over all servers |
| Servers.CardsFollowKeys | frontend/src/page/Servers.tsx:47-83 | cards built from sorted, distinct keys covering the regions are in strictly ascending region order and carry each region's sums |
| Servers.CardsCoverRegions | frontend/src/page/Servers.tsx:47-73 | cards that follow a key list covering the map show exactly the servers' regions |
| Servers.SameElements | frontend/src/page/Servers.tsx:48 | sorting does not change which keys are present |
| Servers.RegionSlotsDifferFromCapacity | frontend/src/page/Servers.tsx:38-83 | one server with 32 slots gives its region 32 slots, while global capacity counts 24 for it |
| Servers.DefaultSlotsMatchCapacity | frontend/src/page/Servers.tsx:38-83 | when every server has 24 slots, the per-region slot totals add up to the global capacity |
| Servers.ServersPage.constructor | frontend/src/page/Servers.tsx:107-127 | no servers; the first expiry is the current time |
| Servers.ServersPage.OnExpire | frontend/src/page/Servers.tsx:128-138 | on success the servers become the response, or the empty list when it is null; on failure one alert with the error is added and the servers are kept; either way the timer is re-armed exactly once, for five seconds later |
| Servers.ServersPage.Restart | frontend/src/page/Servers.tsx:120-125 | the timer's next expiry is the given time; one more restart |
| ReportView.Pop | frontend/src/page/ReportViewPage.tsx:89 | absent exactly for an empty list; otherwise the last element |
| ReportView.CurrentBanIsLastLive | frontend/src/page/ReportViewPage.tsx:89 | a history entry that is not deleted, with every later entry deleted, is the current ban |
| ReportView.CurrentBanAbsent | frontend/src/page/ReportViewPage.tsx:89 | there is no current ban iff every entry is deleted; a current ban is an entry of the history and is not deleted |
| ReportView.RenderBan | frontend/src/page/ReportViewPage.tsx:116-129 | `Banned` on the error colour iff the type is Banned; `Muted` on the warning colour for every other number |
| ReportView.ShownStatusDefault | frontend/src/page/ReportViewPage.tsx:178-188 | the loaded report's status, or Opened when no report is loaded |
| ReportView.ResolveControls | frontend/src/page/ReportViewPage.tsx:259-288 | the resolve controls show iff the user is at least a moderator; they offer four distinct statuses, which are all of them |
| ReportView.ResolveChoicesComplete | frontend/src/page/ReportViewPage.tsx:283-288 | the menu lists every status, once |
| ReportView.ShowSubject | frontend/src/page/ReportViewPage.tsx:145-166 | a spinner iff no report is loaded or its subject's id is 0; otherwise the report's subject, with a ban heading iff there is a current ban, that ban's heading |
| ReportView.BansQueryFor | frontend/src/page/ReportViewPage.tsx:79-87 | no query when no report is loaded or its `reported_id` is 0; otherwise up to 100 bans of that id, deleted ones included |
| ReportView.ReportViewPage.constructor | frontend/src/page/ReportViewPage.tsx:48-51 | no report, status Opened, empty history, no current ban; the selected status is the shown one |
| ReportView.ReportViewPage.OnReportFetched | frontend/src/page/ReportViewPage.tsx:61-77 | a report response is stored and its status selected, so the selected status is the shown one; a null response changes nothing; a failure flashes the denial message and navigates to the report list; the history is untouched |
| ReportView.ReportViewPage.LoadBans | frontend/src/page/ReportViewPage.tsx:79-92 | the query issued is the one for the loaded report, or none |
| ReportView.ReportViewPage.OnBansFetched | frontend/src/page/ReportViewPage.tsx:87-91 | the fetched list replaces the history wholesale, and the current ban is always the one derived from the history |
| ReportView.ReportViewPage.OnStateSelected | frontend/src/page/ReportViewPage.tsx:57-59 | the chosen status becomes the selected one |
| ReportView.ReportViewPage.OnSetReportState | frontend/src/page/ReportViewPage.tsx:98-114 | success flashes the change from the shown status to the selected one; failure flashes the error's message |
| Wiki.Page.constructor | frontend/src/page/WikiPage.tsx:24-31 | the page object holds the given fields |
| Wiki.EffectiveSlug | frontend/src/page/WikiPage.tsx:43-56 | the route slug when it is present and non-empty, otherwise `home`; never empty |
| Wiki.BodyHtml | frontend/src/page/WikiPage.tsx:79-83 | the body is rendered iff the revision is positive and the markdown is non-empty, and then it is that markdown's rendering |
| Wiki.Render | frontend/src/page/WikiPage.tsx:85-158 | at most one panel; exactly one for a non-negative revision; the spinner iff loading; the page view iff not loading, not editing and revision > 0; the not-found panel with the effective slug iff not loading, not editing and revision 0; the editor with the page's body iff not loading and editing; the edit and create buttons iff moderator |
| Wiki.WikiPageView.constructor | frontend/src/page/WikiPage.tsx:34-39 | mounted with the default page, loading, not editing |
| Wiki.WikiPageView.LoadPageAsWritten | frontend/src/page/WikiPage.tsx:41-51 | the page for the effective slug is requested, and loading is already false when the effect returns |
| Wiki.WikiPageView.LoadPage | frontend/src/page/WikiPage.tsx:41-43 | the page for the effective slug is requested and loading is raised |
| Wiki.WikiPageView.OnPageFetched | frontend/src/page/WikiPage.tsx:44-49 | a fetched page replaces the held one, and a failure keeps it; loading is cleared |
| Wiki.WikiPageView.OnEdit | frontend/src/page/WikiPage.tsx:100-140 | the Edit Page or Create It button enters edit mode |
| Wiki.WikiPageView.OnSave | frontend/src/page/WikiPage.tsx:53-77 | the held page object itself is stamped with the effective slug and the new body, and exactly that is submitted; on success the page becomes the response, one `Saved wiki page` flash for the response's slug is appended after the others, and edit mode ends; on failure the view is unchanged and stays in edit mode |
| Wiki.PendingLoadAsWritten | frontend/src/page/WikiPage.tsx:34-128 | as written, a freshly mounted page whose request is pending shows the not-found panel for `home` |
| Wiki.PendingLoad | frontend/src/page/WikiPage.tsx:34-93 | with loading cleared when the request settles, a pending page shows only the spinner |
| Profiles.ChipFor | frontend/src/page/Profile.tsx:105-136 | a chip is red iff its ban predicate holds, and green otherwise |
| Profiles.StatusChips | frontend/src/page/Profile.tsx:105-136 | four chips in order: VAC red iff `vac_bans > 0`, Game Ban red iff `game_bans > 0`, Economy Ban red iff `economy_ban` is not `none`, Community Ban red iff `community_banned` |
| Profiles.CleanRecordAllGreen | frontend/src/page/Profile.tsx:105-136 | all four chips are green iff the player has no VAC or game bans, economy `none` and no community ban |
| Profiles.Render | frontend/src/page/Profile.tsx:46-177 | the spinner iff loading; the content iff not loading, a profile is present and its `steam_id` is positive, and then with the profile's chips and friends; never both |
| Profiles.FriendsShown | frontend/src/page/Profile.tsx:172 | the friend list is the profile's, or empty when it has none |
| Profiles.ProfileView.constructor | frontend/src/page/Profile.tsx:24-25 | no profile, loading |
| Profiles.ProfileView.StartFetch | frontend/src/page/Profile.tsx:29-34 | without a `steam_id`, absent or empty, nothing is requested and loading is unchanged; otherwise loading is raised and that id's profile is requested |
| Profiles.ProfileView.FetchSettled | frontend/src/page/Profile.tsx:35-43 | loading is cleared whatever the outcome, and the profile is replaced only by a non-null response |
| ReportView.Live | frontend/src/page/ReportViewPage.tsx:89 | the entries that are not deleted, in history order; its meaning is stated by CurrentBanIsLastLive and CurrentBanAbsent |
| ReportView.CurrentBan | frontend/src/page/ReportViewPage.tsx:89 | the last live entry of the history; characterised by CurrentBanIsLastLive and CurrentBanAbsent |
| ReportView.ShownStatus | frontend/src/page/ReportViewPage.tsx:178-188 | the loaded report's status, or Opened; stated by ShownStatusDefault |
| Servers.Total | frontend/src/page/Servers.tsx:39 | the sum of a per-server amount over a list; TotalAppend splits it over a concatenation |
| Servers.Usage | frontend/src/page/Servers.tsx:39 | the sum of the player counts; stated by UsageCountsEveryPlayer and RegionTotalConserved |
| Servers.Capacity | frontend/src/page/Servers.tsx:38 | 24 per server; stated by CapacityIsTotal and DefaultSlotsMatchCapacity |
| Servers.Bucket | frontend/src/page/Servers.tsx:40-46 | the servers of one region in list order; stated by BucketMembers, BucketAppend, BucketOfAbsentRegion and GroupByRegion |
| Servers.Regions | frontend/src/page/Servers.tsx:40-47 | the set of the servers' regions; GroupByRegion proves it is the map's key set |
| Servers.LexLe | frontend/src/page/Servers.tsx:48 | the ascending order on region strings; LexLeTotal proves it total |
| Servers.RegionTotal | frontend/src/page/Servers.tsx:73-83 | a per-server amount summed bucket by bucket over a key list; stated by RegionTotalSnoc, RegionTotalEmpty and RegionTotalConserved |
| Servers.Card | frontend/src/page/Servers.tsx:73-83 | a region's card: its key, pSum and pMax; stated by CardsAreRegionTotals and CardsFollowKeys |
| Bans.ReasonCode | frontend/src/api/bans.ts:11-24 | the enum value of each reason; stated by ReasonOfCode and ReasonCodeRoundTrip |
| Bans.ReasonLabel | frontend/src/api/bans.ts:26-39 | the label of each reason; ReasonLabelsDistinct proves the labels distinct |
| Bans.BanTypeCode | frontend/src/api/bans.ts:55-60 | the enum value of each ban type; stated by BanTypeOfCode and BanTypeCodeRoundTrip |
| Bans.Flatten | frontend/src/api/bans.ts:134-166 | the record built for one response element; stated by FlattenRoundTrip and FlattenIdentifies |
| Bans.Unflatten | frontend/src/api/bans.ts:88-105 | the split of a record into a ban and a player; FlattenRoundTrip proves it inverts Flatten up to the ban's `steam_id` |
| Profiles.ShowsContent | frontend/src/page/Profile.tsx:53 | the content gate; Render proves the content shows exactly when it holds |
| Wiki.SavedFlash | frontend/src/page/WikiPage.tsx:61-69 | the flash of a successful save; OnSave proves exactly one is appended |
| PugLobbies.Run | internal/app/web_ws_pug.go:39-116 | one goroutine's lock calls in order, completing, blocking or faulting; stated by JoinAsWrittenDeadlocks, PairReleases and JoinFixedReleases |
| PugLobbies.JoinLockOps | internal/app/web_ws_pug.go:51-80 | `Lock` at line 52, `promote`'s `Lock` and deferred `Unlock` at 76-77 when the joiner is the only member, then the deferred `Unlock` of line 53; JoinAsWrittenDeadlocks runs it |
| PugLobbies.JoinLockOpsFixed | internal/app/web_ws_pug.go:51-80 | the corrected join: one `Lock` and its deferred `Unlock`; JoinFixedReleases runs it |
| PugLobbies.LeaveLockOps | internal/app/web_ws_pug.go:82-100 | `RLock` at 83, then `RUnlock` at 85 for a non-member; for a member `RUnlock` at 88 and `id`'s `RLock`/`RUnlock` (46-47) while the broadcast is built; JoinAsWrittenDeadlocks runs it |
| PugLobbies.CallLockOps | internal/app/web_ws_pug.go:39-116 | the lock calls of `clientCount` (40-41), `join`, `leave` and `sendUserMessage` (107-108); JoinAsWrittenDeadlocks runs each |
| PugLobbies.CallLockOpsFixed | internal/app/web_ws_pug.go:39-116 | the same calls with the corrected join; JoinFixedReleases runs each |
| Common.Without | internal/app/web_ws_pug.go:97-98 | the result holds exactly the elements other than the removed one, and is no longer |
| Common.WithoutNoDuplicates | internal/app/web_ws_pug.go:97 | removal keeps a list free of duplicates |
| Common.WithoutMember | internal/app/web_ws_pug.go:97 | removing a member of a list without duplicates cuts out exactly its position |
| Common.WithoutAbsent | internal/app/web_ws_pug.go:97 | removing an absent element changes nothing |
| Common.DistinctCardinality | internal/app/web_ws_pug.go:39-43 | a list without duplicates has as many elements as distinct values |

## Left out

- Locks: the lobby's `sync.RWMutex` is not part of the class state, so the
  class methods model the sequential effect of each call. The
  `Step`/`Run` functions model only the lock discipline of one goroutine,
  not the interleavings.
- `leave` releases its read lock and then, unlocked, broadcasts and changes
  `Clients` (internal/app/web_ws_pug.go:88-97). That race with concurrent
  joins is a concurrency concern and is not modelled.
- `PugLobbies.PugLobby.Leave`: a departing leader stays `Leader` even after it
  has left, as the source does. No successor is chosen.
- `lobbyType`, `id`, `broadcast`, `client.send`, `sendPugLobbyListStates` and
  `sendPugCreateLobbyResponse`: constant results and socket output.
  `createPugLobby` is left out because its work is in `cm.createPugLobby`,
  which is defined in the connection manager's own file and is not
  modelled.
- `fp.Remove` (defined in pkg/fp) and `client.removeLobby`, `cm.findLobby`,
  `cm.removeLobby` and `client.currentPugLobby` (defined with the client and
  the connection manager) are not modelled from their code. The model
  takes removal to drop every occurrence and keep the order. It takes the
  manager to be a map from lobby id to lobby, and the current lobby to be a
  parameter. The error the lookup returns for an unknown id is named
  `ErrLobbyNotFound`. `removeLobby`'s own error is not modelled, because
  `leavePugLobby` returns nil whatever it is.
- JSON decoding, logging and `config.Now()` are parameters or omitted.
- The progress percentages on the statistics cards and the global bar are
  left out: they are floating point, and there is a division by zero when
  there are no servers.
- Servers: the grouping is written as `Object.hasOwn` checks on a plain
  object. A region named like an `Object.prototype` member (`__proto__`)
  would misbehave there. The model uses a true map. Null entries in the
  server list, which the `value?.` guards allow for, are not modelled.
- `Servers.SortKeys` orders keys by Unicode scalar values.
  `Array.prototype.sort` compares UTF-16 code units, so the two orders
  differ only for regions with characters outside the Basic Multilingual
  Plane.
- Rendering and React plumbing are left out: layout, theme colours,
  `useTimer`, effect scheduling, routing, the map and table components,
  `renderMarkdown` (its output is an opaque `RenderedMarkdown(md)`),
  `reportStatusString` (a parameter of `OnSetReportState`) and
  `reportStatusColour`.
- `PermissionLevel`'s numeric values are defined in the front end's API
  constants, which are not modelled. The model has four ordered tiers, Guest < User < Moderator < Admin.
- The overlapping-fetch race (a stale response arriving after a newer
  one) and `parseInt` of the route's report id are left out.
- The other request functions of the ban API (`apiGetBan`, `apiCreateBan`,
  `apiDeleteBan` and the ban-message calls) are single `apiCall`s with no
  logic and are left out.
- `Wiki.WikiPageView.LoadPageAsWritten`: the wiki load effect clears
  loading synchronously, unlike the profile page, which clears it when the
  request settles (see Findings). `LoadPageAsWritten` follows the code, and
  `LoadPage`/`OnPageFetched` give the settling version.
- The Login page and the HTTP integration tests are not modelled. The
  HTTP handlers those tests call are not modelled either.
- Page state that none of the modelled rules read is left out. On the
  servers page that is the map position, `customRange`, `selectedServers`,
  `filterByRegion`, `showOpenOnly` and `selectedRegion` (Servers.tsx:108-116).
  On the report page it is `banModalOpen` (ReportViewPage.tsx:52).

## Findings

| source | as written | input that shows it | evidently intended | confidence | as-written member | corrected member |
|---|---|---|---|---|---|---|
| internal/app/web_ws_pug.go:51-80 | `join` holds the lobby's write lock and calls `promote`, which takes the same non-reentrant lock again | a join to a lobby with no members: the joiner becomes the only client, and the goroutine blocks for ever at `promote`'s `Lock`. Through the handlers, an emptied lobby is dropped as soon as `leavePugLobby` sees it empty, so this needs a join that found the lobby in the window between `leave` and `removeLobby`, or a caller not shown | set the leader under the lock `join` already holds | high, not executed | PugLobbies.JoinAsWrittenDeadlocks | PugLobbies.JoinFixedReleases |
| frontend/src/page/WikiPage.tsx:41-51 | the effect calls `setLoading(false)` straight after starting the request, not when it settles | mounting the page: while the request is pending, the default page (revision 0) shows the "Wiki Entry Not Found" panel instead of the spinner | clear loading in the request's `finally` | high, not executed | Wiki.PendingLoadAsWritten | Wiki.PendingLoad |
