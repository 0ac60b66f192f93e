# AIT member portal: a Dafny model of the client core

This project models the client side of the AIT member portal, a React application
for a community of members. It covers the parts of the client that decide something:

- the role model: clearance levels, titles, badge styles and capability flags;
- the session store: token in browser storage, `checkUser`, `login` and `logout`;
- the API catalogue and the two interceptors: the bearer header, and dropping the token on a 401;
- the route guard;
- the social hook: search, friend requests and RSVP;
- the administration console;
- the dashboard header's notifications;
- the community feed;
- the meetups board;
- the dashboard page's view rules.

Each source file is one module.
- Pure logic (titles, filters, predicates, URL building) is written as functions, with lemmas about them.
- Components and hooks that update state are classes. Their methods change the fields in place.
- Each method is specified by a function from the old state and the inputs to the new state. The lemmas state what the source promises about those functions.

Several things the browser or the network supplies become method parameters:
- the backend's answers, as `Response<T>`: either the data or an error with its HTTP status and message;
- the answers to `window.confirm`, and the text typed into `window.prompt`;
- the object URL the browser makes for a picked image.

JavaScript's truthiness (`""`, `0`, `undefined` are false), `||`, `??` and `String.prototype.trim` are written out in `Js`.

Files:

- `wrappers.dfy`: `Option`.
- `js.dfy`: truthiness, `trim` with the ECMAScript white-space and line-terminator sets, and `reverse`.
- `browser_storage.dfy`: `localStorage` as a class over a string map.
- `identity.dfy`: the user and notification records.
- `api_configs.dfy`: `src/lib/api-configs.ts`.
- `user_role.dfy`: `src/hooks/useUserRole.ts`.
- `auth_context.dfy`: `src/contexts/AuthContext.tsx`.
- `app.dfy`: `src/App.tsx`.
- `use_social.dfy`: `src/hooks/useSocial.ts`.
- `admin_dashboard.dfy`: `src/pages/AdminDashboard.tsx`.
- `dashboard_header.dfy`: `src/components/DashboardHeader.tsx`.
- `community_feed.dfy`: `src/components/dashboard/CommunityFeed.tsx`.
- `upcoming_events.dfy`: `src/components/dashboard/UpcomingEvents.tsx`.
- `dashboard.dfy`: `src/pages/Dashboard.tsx`.

The social, feed and events handlers build their URLs from `ApiConfigs.Completed`, the catalogue with the missing entries filled in (see Findings). `ApiConfigs.Endpoints` is the catalogue exactly as written, and the as-written lemmas show what it yields. The admin console's handlers are modelled by the call they intend to send (`AdminDashboard.Plan`), because the catalogue as written has no ADMIN group at all. `AdminDashboard.RequestAsWritten` and `AdminDashboard.AdminCallsAsWritten` show that as written all but two of those calls throw before any request is sent (see Findings).

## Model

| member | source | states |
|---|---|---|
| UserRole.RoleName | src/hooks/useUserRole.ts:7-15 | each title holds exactly on its level: Owner from 6 up, Administrator 5, Moderator 4, Member III 3, Member II 2, Member 1, and "Banned" exactly for 0 and below |
| UserRole.RoleColor | src/hooks/useUserRole.ts:21-43 | exactly one style per level; the banned style only for 0, the default style exactly for negative levels |
| UserRole.NameAgreesWithStyle | src/hooks/useUserRole.ts:7-43 | on non-negative levels two levels share a title iff they share a style; a negative level is titled "Banned" but is not styled as banned |
| UserRole.EffectiveLevel | src/hooks/useUserRole.ts:53-54 | `?? 1`: a missing user or level reads as 1, while an explicit level (0 included) is kept |
| UserRole.ControlPercentage | src/hooks/useUserRole.ts:76 | 100 iff level >= 6, 60 iff 5, 30 iff 4, 0 iff below 4, always within 0..100 |
| UserRole.UseUserRole | src/hooks/useUserRole.ts:50-77 | level and roleNumber are the defaulted level; an explicit level 0 is banned and not a user; no user is a plain Member |
| UserRole.Thresholds | src/hooks/useUserRole.ts:56-73 | isBanned iff 0, isUser iff >= 1, canPostEvents = isUser, moderator/admin/owner flags equal their capability twins at 4/5/6, roleName and roleColor are the helpers' values |
| UserRole.Monotonic | src/hooks/useUserRole.ts:64-76 | raising the level never removes a flag and never lowers the control percentage |
| UserRole.BannedHoldsNothing | src/hooks/useUserRole.ts:63-76 | at level 0 or below every capability is false and control is 0; only 0 itself is flagged banned |
| UserRole.RanksNest | src/hooks/useUserRole.ts:63-67 | owner implies admin implies moderator implies user; banned excludes user |
| AuthContext.CheckUserSpec | src/contexts/AuthContext.tsx:12-29 | loading ends false on every path; without a truthy token nothing else changes; on success the user is the answer and the token is kept; on failure the token is removed and the user cleared |
| AuthContext.LoginSpec | src/contexts/AuthContext.tsx:35-38 | the token is stored, the user is the given data, loading and every other storage key are untouched |
| AuthContext.LogoutSpec | src/contexts/AuthContext.tsx:40-43 | the token is gone, the user is null, loading and other keys are untouched |
| AuthContext.CheckUserOutcomes | src/contexts/AuthContext.tsx:12-29 | `checkUser` never leaves loading set; only a failed fetch signs out; other storage keys are never touched |
| AuthContext.LogoutIdempotent | src/contexts/AuthContext.tsx:40-43 | logging out twice equals logging out once |
| AuthContext.LoginThenCheck | src/contexts/AuthContext.tsx:12-38 | after a login with a non-empty token, `checkUser` fetches, and on success keeps that token and adopts the fetched user |
| AuthContext.LogoutThenCheck | src/contexts/AuthContext.tsx:12-43 | after a logout, `checkUser` makes no request and the user stays null |
| AuthContext.AuthProvider.constructor | src/contexts/AuthContext.tsx:9-10 | the provider starts with no user and loading set |
| AuthContext.AuthProvider.CheckUser | src/contexts/AuthContext.tsx:12-29 | it fetches exactly when the stored token is truthy, and leaves the state `CheckUserSpec` gives, the response interceptor included |
| AuthContext.AuthProvider.Login | src/contexts/AuthContext.tsx:35-38 | the new state is `LoginSpec` of the old |
| AuthContext.AuthProvider.Logout | src/contexts/AuthContext.tsx:40-43 | the new state is `LogoutSpec` of the old |
| ApiConfigs.LikePath | src/lib/api-configs.ts:28 | calling the catalogue's LIKE entry with an id gives "/posts/" + id + "/like" |
| ApiConfigs.LikePathRecoversId | src/lib/api-configs.ts:28 | the id can be read back from the like path, so distinct posts get distinct paths |
| ApiConfigs.Interpolate | src/lib/api-configs.ts:9-33 | a template literal over a catalogue member reads "undefined" for a missing entry, the path for a present one, and throws for a missing group |
| ApiConfigs.Invoke | src/lib/api-configs.ts:9-33 | calling a catalogue member yields a URL iff the member is a per-id function, and then prefix + id + suffix; otherwise a TypeError |
| ApiConfigs.UndefinedPathsAsWritten | src/lib/api-configs.ts:15-32 | with the catalogue as written, request, accept, friend, post, like and event-search URLs start with "undefined" |
| ApiConfigs.LikeUrlAsWrittenMissesCatalogue | src/components/dashboard/CommunityFeed.tsx:68 | the feed's like URL is never the catalogue's own LIKE path |
| ApiConfigs.ThrowingCallsAsWritten | src/components/dashboard/UpcomingEvents.tsx:44-64 | RSVP, event delete and report dismissal throw before any request, and the catalogue has no ADMIN group |
| ApiConfigs.CompletedExtendsCatalogue | src/lib/api-configs.ts:9-33 | the completed catalogue keeps every written entry, and still has no ADMIN group |
| ApiConfigs.CompletedSocialPaths | src/hooks/useSocial.ts:49-101 | with the completed catalogue, request and accept reach the paths the catalogue's own REQUEST and ACCEPT entries name, and friends reach "/users/friends/" + id |
| ApiConfigs.CompletedFeedPaths | src/components/dashboard/CommunityFeed.tsx:56-71 | with the completed catalogue, the post path is "/posts/" + id and the like path equals the LIKE entry |
| ApiConfigs.CompletedEventPaths | src/components/dashboard/UpcomingEvents.tsx:42-77 | with the completed catalogue, event search, RSVP and delete reach "/events/search", "/events/" + id + "/rsvp" and "/events/" + id |
| ApiConfigs.WithBearer | src/lib/api-configs.ts:44-50 | with a truthy token the Authorization header is exactly "Bearer " + token and every other header is kept; with no token the headers are unchanged |
| ApiConfigs.WithBearerIdempotent | src/lib/api-configs.ts:44-50 | intercepting twice gives the same headers as once |
| ApiConfigs.InterceptRequest | src/lib/api-configs.ts:44-50 | the same request object is returned, its headers updated by `WithBearer` from the stored token |
| ApiConfigs.StoreAfterResponse | src/lib/api-configs.ts:53-63 | a 401 removes the token and nothing else; any other outcome leaves storage unchanged |
| ApiConfigs.InterceptResponse | src/lib/api-configs.ts:53-63 | every outcome is passed on unchanged, and storage becomes `StoreAfterResponse` of the old |
| Js.TrimEmptyIffAllWhiteSpace | src/hooks/useSocial.ts:16 | `trim()` is empty exactly when the text is all white space or line terminators |
| Js.TrimIsInfix | src/hooks/useSocial.ts:16 | the trimmed text is a contiguous piece of the original |
| Js.Reverse | src/components/DashboardHeader.tsx:22 | `reverse()` keeps the length, and element i is the original's element n-1-i |
| App.PrivateRoute | src/App.tsx:28-36 | loading shows the placeholder; otherwise the children iff a user is present, else a redirect to "/login"; exactly one of the three |
| App.RouteOf | src/App.tsx:45-76 | each of the ten listed paths reaches its own page, and only locations whose canonical form is that path reach it; NotFound iff the canonical form is none of the ten |
| App.Canonical | src/App.tsx:45-76 | the lookup key is never empty, and it is "/" exactly for a location made only of slashes |
| App.TrailingSlashIgnored | src/App.tsx:45-76 | a trailing "/" never changes the page a location reaches |
| App.CaseIgnored | src/App.tsx:45-76 | folding A..Z to lower case never changes the page a location reaches |
| App.MemberPathsMatchLoosely | src/App.tsx:58-73 | "/Dashboard" reaches the dashboard and "/profile/" the profile, so both sit behind the guard |
| App.Render | src/App.tsx:28-76 | public pages show regardless of the session; protected pages follow the guard's three cases |
| App.PublicPathsIgnoreSession | src/App.tsx:47-75 | every location whose canonical form is neither "/dashboard" nor "/profile" renders the same for every session |
| App.RedirectTargetIsPublic | src/App.tsx:35-48 | the guard's redirect lands on the public login page, so redirects cannot loop |
| App.SettledSessionNeverSpins | src/App.tsx:28-36 | once `checkUser` has settled, no path shows the placeholder; a failed revalidation sends protected paths to "/login" |
| Social.MarkPendingSent | src/hooks/useSocial.ts:55-57 | length and order are kept; entries whose id is the target show "pending_sent"; all others are unchanged |
| Social.MarkPendingSentIdempotent | src/hooks/useSocial.ts:55-57 | marking the same target twice equals marking it once |
| Social.MarkPendingSentCommutes | src/hooks/useSocial.ts:55-57 | requests to two members give the same list in either order |
| Social.ErrorText | src/hooks/useSocial.ts:62 | the backend's message when it is non-empty, else the fallback |
| Social.SearchOutcomes | src/hooks/useSocial.ts:15-46 | a blank query empties its list with no request; a real query clears loading, success replaces the list, failure keeps it; each search leaves the other list alone |
| Social.SendRequestOutcomes | src/hooks/useSocial.ts:49-67 | after a send, loading is clear and the length is kept; on success the target shows "pending_sent"; on failure or for other members the entry is unchanged |
| Social.SettleOutcomes | src/hooks/useSocial.ts:70-101 | accept and remove clear loading and never touch either result list |
| Social.SocialHook.constructor | src/hooks/useSocial.ts:10-12 | the hook starts idle with empty lists |
| Social.SocialHook.SearchUsers | src/hooks/useSocial.ts:15-29 | a request iff the trimmed query is non-empty, to "/users/search?query=" + query; the new state is `SearchUsersSpec` |
| Social.SocialHook.SearchEvents | src/hooks/useSocial.ts:32-46 | a request iff the trimmed query is non-empty; the new state is `SearchEventsSpec` |
| Social.SocialHook.SendRequest | src/hooks/useSocial.ts:49-67 | the request URL, the success or error toast, and the new state `SendRequestSpec` |
| Social.SocialHook.AcceptRequest | src/hooks/useSocial.ts:70-84 | the accept URL, the toast for each outcome, and only loading settles |
| Social.SocialHook.RemoveFriend | src/hooks/useSocial.ts:87-101 | the friends URL, the toast for each outcome, and only loading settles |
| Social.ToggleLike | src/hooks/useSocial.ts:104-110 | the like request goes to "/posts/" + id + "/like" |
| Social.RsvpToEvent | src/hooks/useSocial.ts:112-124 | the data is returned iff the call succeeded; the toast carries the backend's message or "Could not join event" |
| AdminDashboard.NextLevel | src/pages/AdminDashboard.tsx:198 | from a non-negative level the next one is within 1..5, and it is either one step up or 1 |
| AdminDashboard.CycleNeverOwnerNorBanned | src/pages/AdminDashboard.tsx:198 | cycling from a non-negative level never grants Owner and never bans |
| AdminDashboard.CyclePeriodFive | src/pages/AdminDashboard.tsx:198 | from any level 1..5, five clicks return to it and no fewer do |
| AdminDashboard.Flagged | src/pages/AdminDashboard.tsx:75 | the queue holds exactly the feed posts with a non-empty reports list, as a sublist of the feed |
| AdminDashboard.FlaggedDistributes | src/pages/AdminDashboard.tsx:75 | filtering a concatenation concatenates the filtered parts, so feed order is kept |
| AdminDashboard.FlaggedIdempotent | src/pages/AdminDashboard.tsx:75 | filtering the queue again changes nothing |
| AdminDashboard.FlaggedBadge | src/pages/AdminDashboard.tsx:266-272 | the badge appears iff the queue is non-empty, and shows its length |
| AdminDashboard.CommandMenu | src/pages/AdminDashboard.tsx:326-336 | Resend Verify and Force Reset are always offered; Cycle Role, Ghost Mode, IP Ban and Purge iff the viewer is an owner |
| AdminDashboard.OwnerControlsNeedLevelSix | src/pages/AdminDashboard.tsx:328-352 | the owner-only commands and the maintenance card appear exactly from level 6 up |
| AdminDashboard.Plan | src/pages/AdminDashboard.tsx:122-207 | no call iff the ban reason is empty or a confirming handler is declined; role cycling sends `NextLevel`, the toggle sends the negated flag, and the ban sends the typed reason |
| AdminDashboard.AdminCallsAsWritten | src/pages/AdminDashboard.tsx:84-201 | over the catalogue as written, the stats fetch and every call except the maintenance toggle and the post deletion throw before their request, so a command leaves the console unchanged; the post deletion goes to "undefined/" + id |
| AdminDashboard.DeclineAborts | src/pages/AdminDashboard.tsx:141-145 | a decline never calls; an empty or cancelled ban reason stops before the confirmation is shown; resend and dismiss need no confirmation |
| AdminDashboard.ToggleOutcomes | src/pages/AdminDashboard.tsx:51-69 | the toggle asks for the negated flag only when confirmed, adopts the server's value, and a decline changes nothing |
| AdminDashboard.InitNeverSettlesAsWritten | src/pages/AdminDashboard.tsx:93-105 | with the context value as written, start-up changes nothing and the console stays loading for every backend answer |
| AdminDashboard.InitSettles | src/pages/AdminDashboard.tsx:93-119 | with `checkUser` in the context value, start-up clears both spinners and loads the flagged queue |
| AdminDashboard.AdminConsole.constructor | src/pages/AdminDashboard.tsx:33-39 | no stats, loading, not refreshing, an empty queue, maintenance off |
| AdminDashboard.AdminConsole.FetchStats | src/pages/AdminDashboard.tsx:107-119 | stats adopted on success; loading and refreshing both end false |
| AdminDashboard.AdminConsole.FetchReportedContent | src/pages/AdminDashboard.tsx:71-80 | on success the queue is `Flagged` of the feed; on failure it is unchanged |
| AdminDashboard.AdminConsole.FetchSystemStatus | src/pages/AdminDashboard.tsx:42-49 | on success the maintenance flag is the server's |
| AdminDashboard.AdminConsole.InitCommandCenter | src/pages/AdminDashboard.tsx:93-105 | the corrected start-up: stats, then queue, then status |
| AdminDashboard.AdminConsole.HandleToggleMaintenance | src/pages/AdminDashboard.tsx:51-69 | the call is `Plan` of the toggle; the new state is `ToggleSpec` |
| AdminDashboard.AdminConsole.HandleCommand | src/pages/AdminDashboard.tsx:82-207 | the call is `Plan`; a successful ban, purge or role change refreshes the stats, and a successful post deletion or dismissal refreshes the queue |
| AdminDashboard.AdminConsole.HandleGhostLogin | src/pages/AdminDashboard.tsx:128-139 | on a confirmed success the stored token and user become the other member's and the page moves to "/dashboard"; otherwise storage is unchanged |
| DashboardHeader.NotificationsOf | src/components/DashboardHeader.tsx:21 | a missing notifications field is the empty list |
| DashboardHeader.Unread | src/components/DashboardHeader.tsx:23 | exactly the notifications whose read flag is falsy, each as many times as it occurs in the list |
| DashboardHeader.CountUnread | src/components/DashboardHeader.tsx:23 | at most the list length, and zero iff no notification is unread |
| DashboardHeader.CountUnreadAdds | src/components/DashboardHeader.tsx:23 | the count of a concatenation is the sum of the counts; a single notification counts 1 if unread and 0 if read |
| DashboardHeader.UnreadAppend | src/components/DashboardHeader.tsx:23 | the unread filter distributes over concatenation |
| DashboardHeader.CountUnreadReverse | src/components/DashboardHeader.tsx:22-23 | counting the reversed list gives the count of the list as fetched |
| DashboardHeader.AcceptShownOnlyForUnreadRequests | src/components/DashboardHeader.tsx:107 | accept controls appear exactly on unread friend requests, each of which the badge counts |
| DashboardHeader.HeaderAcceptUrl | src/components/DashboardHeader.tsx:38 | the accept call goes to "/users/accept/" + requester |
| DashboardHeader.FetchOutcomes | src/components/DashboardHeader.tsx:18-27 | the shown list is the fetched one reversed; the dot shows iff some notification is unread; a profile without notifications gives an empty list and 0 |
| DashboardHeader.MarkOutcomes | src/components/DashboardHeader.tsx:46-54 | marking never touches the list, hides the dot on success, changes nothing on failure, and is idempotent |
| DashboardHeader.ReverseInPlace | src/components/DashboardHeader.tsx:22 | the array afterwards is the reverse of its old contents |
| DashboardHeader.Header.constructor | src/components/DashboardHeader.tsx:14-15 | no notifications and a zero count |
| DashboardHeader.Header.FetchNotifications | src/components/DashboardHeader.tsx:18-27 | it reverses the fetched list in place and counts unread; the new state is `FetchSpec` |
| DashboardHeader.Header.MarkAsRead | src/components/DashboardHeader.tsx:46-54 | the PATCH goes out iff the count is non-zero; the new state is `MarkSpec` |
| DashboardHeader.Header.HandleAcceptRequest | src/components/DashboardHeader.tsx:36-44 | the accept URL, the toast for each outcome, and a re-fetch only on success |
| DashboardHeader.HandleLogout | src/components/DashboardHeader.tsx:56-59 | the session is logged out and the page moves to "/" |
| CommunityFeed.PostGuards | src/components/dashboard/CommunityFeed.tsx:36-111 | `handlePost` stops iff the draft is all white space and no image is picked; a spaces-only draft enables the button but posts nothing; a disabled, idle button means nothing to post |
| CommunityFeed.Payload | src/components/dashboard/CommunityFeed.tsx:38-41 | the content is the untrimmed draft, the location is the city or "Texas", and an image entry is present iff one is picked |
| CommunityFeed.HandlePostOutcomes | src/components/dashboard/CommunityFeed.tsx:45-53 | loading ends false; success empties draft, image and preview and re-fetches; failure keeps the draft |
| CommunityFeed.DeleteControlOwnership | src/components/dashboard/CommunityFeed.tsx:145 | with both ids present, the trash icon shows iff they are equal; with one missing it never shows; with both missing it shows |
| CommunityFeed.LikeCount | src/components/dashboard/CommunityFeed.tsx:168 | the likes length, or 0 when absent |
| CommunityFeed.CommentCount | src/components/dashboard/CommunityFeed.tsx:172 | the comments length, or 0 when absent |
| CommunityFeed.LikedImpliesCounted | src/components/dashboard/CommunityFeed.tsx:165-168 | a filled heart implies a count of at least 1 |
| CommunityFeed.Feed.constructor | src/components/dashboard/CommunityFeed.tsx:13-17 | empty list, empty draft, no image, not loading |
| CommunityFeed.Feed.FetchFeed | src/components/dashboard/CommunityFeed.tsx:20-23 | success replaces the list; a failure, never caught, leaves it |
| CommunityFeed.Feed.HandleImageSelect | src/components/dashboard/CommunityFeed.tsx:27-33 | a picked file sets both image and preview; no file changes nothing |
| CommunityFeed.Feed.ClearImage | src/components/dashboard/CommunityFeed.tsx:94 | image and preview are cleared |
| CommunityFeed.Feed.HandlePost | src/components/dashboard/CommunityFeed.tsx:35-54 | a payload iff there is something to post, equal to `Payload`; a toast iff the call failed; the new state is `HandlePostSpec` |
| CommunityFeed.Feed.HandleDelete | src/components/dashboard/CommunityFeed.tsx:56-64 | a call iff confirmed; a toast iff that call failed; a re-fetch only on success |
| CommunityFeed.Feed.HandleLike | src/components/dashboard/CommunityFeed.tsx:66-71 | the like URL, and a re-fetch only on success |
| UpcomingEvents.OrganizerId | src/components/dashboard/UpcomingEvents.tsx:114 | a populated organizer's non-empty id, a bare reference itself, "[object Object]" for a record without id, nothing when absent |
| UpcomingEvents.CurrentUserId | src/components/dashboard/UpcomingEvents.tsx:115 | `id` when non-empty, else `_id` |
| UpcomingEvents.OwnerCheckIgnoresPopulation | src/components/dashboard/UpcomingEvents.tsx:113-116 | a populated organizer and a bare id give the same answer, which is true iff the ids match; no organizer or no member id never shows the delete button |
| UpcomingEvents.AttendeePreview | src/components/dashboard/UpcomingEvents.tsx:179 | the first min(3, n) attendees, as a prefix; none when the list is absent |
| UpcomingEvents.JoinedCount | src/components/dashboard/UpcomingEvents.tsx:189-193 | "N Joined" appears iff the attendee count is positive, and shows that count |
| UpcomingEvents.PreviewWithinCount | src/components/dashboard/UpcomingEvents.tsx:179-193 | the preview has at most 3 avatars and never more than the count; it is empty iff no count is shown |
| UpcomingEvents.CategoryLabel | src/components/dashboard/UpcomingEvents.tsx:145 | the category, or "General" when empty |
| UpcomingEvents.View | src/components/dashboard/UpcomingEvents.tsx:79-110 | the spinner iff loading; the empty card iff settled with no events |
| UpcomingEvents.FetchEndsSpinner | src/components/dashboard/UpcomingEvents.tsx:25-36 | after any fetch the spinner is gone; a failure keeps the list; a non-empty success shows its cards |
| UpcomingEvents.Board.constructor | src/components/dashboard/UpcomingEvents.tsx:20-21 | no events, loading |
| UpcomingEvents.Board.FetchEvents | src/components/dashboard/UpcomingEvents.tsx:25-36 | the list on success, loading false either way |
| UpcomingEvents.Board.HandleRsvp | src/components/dashboard/UpcomingEvents.tsx:42-57 | the RSVP URL, the success toast or the backend's message, and a re-fetch only on success |
| UpcomingEvents.Board.HandleDelete | src/components/dashboard/UpcomingEvents.tsx:59-77 | a call and a toast iff confirmed; a re-fetch only on success |
| Dashboard.VerificationGate | src/pages/Dashboard.tsx:174-230 | the verification alert shows iff Create Post is not offered, and Create Post is offered iff the profile is verified |
| Dashboard.Sidebar | src/pages/Dashboard.tsx:259-282 | the level-up card iff the level is exactly 1, else the insights card |
| Dashboard.ProfileStrength | src/pages/Dashboard.tsx:294 | 35 iff the level is exactly 1, else 85 |
| Dashboard.LevelOneLayout | src/pages/Dashboard.tsx:85-294 | level 1 gets the prompt, 35% and no check badge; a check badge comes with insights and 85% |
| Dashboard.BannerLevel | src/pages/Dashboard.tsx:203 | a missing or 0 level shows as 1; any other level shows as itself |
| Dashboard.BadgeName | src/pages/Dashboard.tsx:125 | a missing level is titled "Banned"; otherwise the level's title |
| Dashboard.BadgeStyle | src/pages/Dashboard.tsx:123 | a missing level gets the default style; otherwise the level's style |
| Dashboard.BannerAndBadge | src/pages/Dashboard.tsx:121-203 | a missing or 0 level shows "Level 1" beside a "Banned" badge; from 1 up, banner and badge agree |
| Dashboard.FriendsCount | src/pages/Dashboard.tsx:135 | the connections length, or 0 when absent |
| Dashboard.LocationLine | src/pages/Dashboard.tsx:130 | the city, or "Texas", followed by ", TX" |
| Dashboard.FailedFetchShowsRestrictedPage | src/pages/Dashboard.tsx:44-56 | a failed first fetch ends loading and leaves the alert, a level-1 banner and a "Banned" badge |
| Dashboard.DashboardPage.constructor | src/pages/Dashboard.tsx:40-42 | no profile, loading, the feed tab |
| Dashboard.DashboardPage.FetchProfile | src/pages/Dashboard.tsx:45-54 | the profile on success, loading false either way |
| Dashboard.DashboardPage.SetActiveTab | src/pages/Dashboard.tsx:160 | only the active tab changes |
| Dashboard.DashboardPage.HandleResendEmail | src/pages/Dashboard.tsx:59-77 | the request path, the profile's email, and the toast for each outcome |

## Left out

- HTTP transport: axios, the base URL from the environment and content-type handling are not modelled. Each call's answer is an input, and URLs are the paths relative to the base.
- Asynchrony: the model does not capture interleaving. Every handler runs to completion with its answers given, and un-awaited re-fetches are applied in sequence.
- Polling: the header's 30-second `setInterval` and its cleanup are timing behaviour and are not modelled.
- Toasts are modelled as values for the social hook, header, feed, events board and dashboard page. The admin console's toasts are not modelled; its handlers return the call they make.
- AdminDashboard.Plan: it states the intended call of each handler, not its URL. The catalogue has no ADMIN group, and the backend routes it would name are not part of this model. The one intended URL the model knows is the post deletion's, `ApiConfigs.PostUrl(Completed, id)` = "/posts/" + id.
- 401 handling: the response interceptor's token removal is modelled only for `checkUser` (`AuthContext.AuthProvider.CheckUser`). These handlers take their answers without passing them through `ApiConfigs.InterceptResponse`, so the model does not promise that a 401 from them removes the stored token: DashboardHeader.Header.FetchNotifications, MarkAsRead and HandleAcceptRequest; Dashboard.DashboardPage.FetchProfile and HandleResendEmail; UpcomingEvents.Board.FetchEvents, HandleRsvp and HandleDelete; the Social.SocialHook methods; the CommunityFeed.Feed methods; and the AdminDashboard.AdminConsole methods.
- App.RouteOf: locations are matched as React Router matches by default, ignoring ASCII case and any run of trailing slashes. Percent-escapes in the location are not decoded.
- AdminDashboard.AdminConsole.HandleGhostLogin: the stored user is taken as already serialised text, so `JSON.stringify` is not modelled. The page change is returned as a path; `window.location` is not modelled.
- Stat cards, the node-distribution bar, the registry table and the Decrypting or spinner text are not modelled. They are display only, and the bar uses floating point.
- Dates are not modelled: `formatDistanceToNow` and `toLocaleDateString` are locale formatting.
- Badge styles are the `RoleStyle` tokens, not the class strings behind them.
- Levels are integers. `handleUpdateRole` on a member with no level computes `undefined + 1` (NaN), which this model does not represent.
- These pages and components are presentational or thin form wrappers and are not part of this model: Home, About, Events, News, Gallery, Contact, NotFound, Login, SignUp, Profile, Maintenance, Footer, Header, Hero, EventCard, NewsletterSignup, MemberDirectory and CreateEventModal.
- Server-side effects of ghost login, IP ban, purge, force reset, role change and maintenance are backend behaviour and are not modelled.
- The header's dismiss button on friend requests has no handler in the source, so it has no counterpart here.
- The dashboard's tab panels are the feed, directory and events components. Only the tab switch is modelled here.

## Findings

| source | as written | input that shows it | evidently intended | confidence | as-written member | corrected member |
|---|---|---|---|---|---|---|
| src/hooks/useSocial.ts:52 | `ENDPOINTS.USERS.BASE` is not in the catalogue, so send, accept and remove build paths from "undefined" | `sendRequest("42")` posts to "undefined/request/42" | "/users/request/42", the route the catalogue's REQUEST entry and its usage note name | not executed | ApiConfigs.UndefinedPathsAsWritten | ApiConfigs.CompletedSocialPaths |
| src/components/dashboard/CommunityFeed.tsx:68 | `ENDPOINTS.POSTS.BASE` is not in the catalogue, so the feed's like and delete paths start with "undefined" | `handleLike("7")` puts to "undefined/7/like" instead of `LIKE("7")` = "/posts/7/like" | the catalogue's LIKE path, and "/posts/7" for delete | not executed | ApiConfigs.LikeUrlAsWrittenMissesCatalogue | ApiConfigs.CompletedFeedPaths |
| src/components/dashboard/UpcomingEvents.tsx:44 | `ENDPOINTS.EVENTS.RSVP` and `DELETE` are not in the catalogue, so calling them throws a TypeError and the handlers show their failure toast without any request | `handleRSVP("7")` | "/events/7/rsvp" and "/events/7" | not executed | ApiConfigs.ThrowingCallsAsWritten | ApiConfigs.CompletedEventPaths |
| src/pages/AdminDashboard.tsx:131 | `ENDPOINTS` has no ADMIN group and no `POSTS.DISMISS_REPORTS`. The stats fetch (:111), ghost login (:131), IP ban (:148), purge (:159), resend (:180), reset (:190), role change (:201) and dismissal (:84) therefore throw a TypeError inside their `try` before any request, and take their failure path. Post deletion (:170) is sent to "undefined/" + id | `handleUpdateRole("u1", 2)`, confirmed: "Transition Failed" and no PATCH | each handler sends its call, with the ban reason, the next level or the negated flag | not executed | AdminDashboard.AdminCallsAsWritten | AdminDashboard.Plan |
| src/pages/AdminDashboard.tsx:31 | the console reads `checkUser` from the auth context, but the provider's value (src/contexts/AuthContext.tsx:46) does not include it. `initCommandCenter` throws at its first step, nothing else runs, and `loading` is never cleared | opening the console with any backend answers | the session is re-synced, then stats, queue and status load and the spinner ends | not executed | AdminDashboard.InitNeverSettlesAsWritten | AdminDashboard.InitSettles |
