# Planify core, modelled in Dafny

Planify is an event-planning marketplace built with Next.js. Customers search
agencies, book packages, track spend and chat with agencies. Agencies run a lead
board and a revenue dashboard. This project models the decision and
transformation rules of the application and proves what they promise. The rules
covered are:

- the Smart Match score and ranking;
- the agency and festival filters and the sidebar and home-page edits that feed them;
- the agencies listing API's tag and portfolio formatting;
- the booking, registration, chat and account-deletion route handlers, over an
  in-memory store;
- the lead board, the agency dashboard's stats and its optimistic status update;
- the customer's bookings page, reward points and budget advisor;
- the checkout package prices and the GST and deposit arithmetic;
- the revenue bar chart;
- the toast queue;
- the chat page, the chat window and the agency profile form.

Layout: one module per source file, plus shared modules.

- `Wrappers` holds `Option`.
- `Text` holds the JavaScript string operations: `toLowerCase` on ASCII,
  `includes`, `trim` with the ECMAScript white-space set, and `split`/`join` on
  one character.
- `Seqs` holds `filter` and a `reduce` sum.
- `JsMath` holds `Math.floor`, `Math.round`, `Math.min` and `Math.max`.
- `Domain` holds the booking record and its status.
- `Store` holds the database as a class of maps keyed by id.

Route handlers are methods that change the `Store.Database` they are given.
React components whose state changes step by step are classes:
`ToastCenter`, `ChatWindowState`, `ChatPageState`, `MyBookingsPage` and
`Dashboard`. Pure transforms are functions. Money is an exact `real`.
`Math.round(x)` is `Floor(x + 0.5)`.

## Model

| member | source | states |
|---|---|---|
| SmartMatch.EventTypePoints | src/lib/smartMatch.ts:33-37 | the event-type part is all of its 40 points or nothing, and nothing for an agency without tags |
| SmartMatch.LocationPoints | src/lib/smartMatch.ts:39-44 | the location part is 30 or the nearby credit of 15, and 30 for an empty preferred location, which every location contains |
| SmartMatch.BudgetPoints | src/lib/smartMatch.ts:46-58 | the budget part is 20, 10 or 0; for a non-negative range it is positive exactly when the budget lies in the 20%-widened band |
| SmartMatch.RatingPoints | src/lib/smartMatch.ts:61 | a rating in [0, 5] earns between 0 and 8, a rating of 5 all 8 |
| SmartMatch.ReviewPoints | src/lib/smartMatch.ts:62 | a non-negative review count earns between 0 and 2, and 50 or more reviews earn all 2 |
| SmartMatch.RawScore | src/lib/smartMatch.ts:31-63 | before rounding the score lies in [15, 100] for a rating in [0, 5] and a non-negative review count |
| SmartMatch.CalculateSmartMatchScore | src/lib/smartMatch.ts:27-66 | for a rating in [0, 5] and a non-negative review count the rounded score lies in [15, 100] |
| SmartMatch.EventTypePointsCases | src/lib/smartMatch.ts:34-37 | the event-type part is 40 exactly when some tag equals the preference ignoring case, else 0; no tags give 0 |
| SmartMatch.LocationPointsCases | src/lib/smartMatch.ts:41-44 | the location part is 30 or 15, and an empty preferred location always earns 30 |
| SmartMatch.BudgetTiers | src/lib/smartMatch.ts:47-58 | 20 exactly inside the range, 10 exactly inside the 20%-widened band but not the range, 0 otherwise |
| SmartMatch.ScoreMonotoneInRating | src/lib/smartMatch.ts:61-65 | raising the rating never lowers the score |
| SmartMatch.ScoreMonotoneInReviews | src/lib/smartMatch.ts:61-65 | raising the review count never lowers the score |
| SmartMatch.ReviewsSaturate | src/lib/smartMatch.ts:62 | any two review counts of at least 50 give the same score |
| SmartMatch.ExactMatchScenario | src/lib/smartMatch.ts:31-65 | a Mumbai wedding agency rated 4.7 with 80 reviews, asked for a wedding in Mumbai within budget, scores 100 |
| SmartMatch.ToleranceBandScenario | src/lib/smartMatch.ts:47-65 | the same agency, asked for a corporate event 12.5% over its range, scores 50 |
| SmartMatch.Annotate | src/lib/smartMatch.ts:76-79 | one entry per agency, in order, each the agency itself with its computed score |
| SmartMatch.Insert | src/lib/smartMatch.ts:80 | the result holds the list plus the inserted entry, one longer, as a multiset |
| SmartMatch.SortByScoreDesc | src/lib/smartMatch.ts:80 | the sort returns a permutation of its input, of the same length |
| SmartMatch.SortProperties | src/lib/smartMatch.ts:80 | the sort is a permutation, non-increasing in score and keeps the input order among equal scores |
| SmartMatch.RankingCorrect | src/lib/smartMatch.ts:71-81 | the ranking is a permutation of the annotated input, sorted by score descending, stable on ties, each score equal to that agency's score |
| SmartMatch.StableTieExample | src/lib/smartMatch.ts:80 | two tied agencies keep their input order behind a higher-scoring one |
| SmartMatch.RankAgenciesByMatch | src/lib/smartMatch.ts:71-81 | one entry per agency, a permutation of the annotated agencies, in non-increasing score order, agencies with equal scores in input order |
| AgenciesPage.MatchesSearch | src/app/agencies/page.tsx:80-86 | an empty or white-space-only query matches every agency |
| AgenciesPage.MatchesLocation | src/app/agencies/page.tsx:89-90 | no selected location passes every agency, and selecting an agency's own location passes it |
| AgenciesPage.MatchesBudget | src/app/agencies/page.tsx:93 | definition only: the agency's top price is at most the ceiling; no contract of its own |
| AgenciesPage.MatchesEventType | src/app/agencies/page.tsx:96-97 | no selected event type passes every agency; an agency without tags passes only then |
| AgenciesPage.MatchesRating | src/app/agencies/page.tsx:100 | definition only: the rating is at least the minimum; no contract of its own |
| AgenciesPage.Matches | src/app/agencies/page.tsx:102 | with a blank query and no selections only the budget ceiling and the minimum rating decide |
| AgenciesPage.FilteredAgencies | src/app/agencies/page.tsx:79-103 | the result is an in-order subsequence of the agencies, holding exactly those passing search, location, budget, event type and rating, each as often as in the input |
| AgenciesPage.BlankSearchMatchesAll | src/app/agencies/page.tsx:80-83 | an empty or white-space-only query matches every agency, because the term is trimmed |
| AgenciesPage.SearchIgnoresQueryCase | src/app/agencies/page.tsx:80-86 | a query and its lower-cased form match the same agencies |
| AgenciesPage.EmptySelectionsImposeNothing | src/app/agencies/page.tsx:89-97 | with no locations and no event types selected only search, budget and rating decide |
| AgenciesPage.LocationIgnoresCaseEventTypeDoesNot | src/app/agencies/page.tsx:89-97 | the location "mumbai" selects an agency in "Mumbai", but the event type "wedding" does not select the tag "Wedding" |
| AgenciesPage.RaisingMaxBudgetKeeps | src/app/agencies/page.tsx:93 | raising the budget ceiling never removes an agency |
| AgenciesPage.RaisingMinRatingNeverAdds | src/app/agencies/page.tsx:100 | raising the minimum rating never adds an agency |
| AgenciesPage.Weaker | src/app/agencies/page.tsx:79-103 | a looser budget and rating give a result containing, in order, the tighter result |
| AgenciesPage.FilterIdempotent | src/app/agencies/page.tsx:79-103 | filtering the result again with the same query and filters returns it unchanged |
| AgenciesPage.InitialState | src/app/agencies/page.tsx:38-45 | the query is `q` or "", the locations are `[location]` for a non-empty parameter and empty otherwise, and the rest is `INITIAL_FILTERS` |
| AgenciesPage.SyncFromParams | src/app/agencies/page.tsx:66-77 | a present `q` replaces the query, a present `location` replaces the locations with `[location]`, and nothing else changes |
| AgenciesPage.Reset | src/app/agencies/page.tsx:135-138 | a reset gives an empty query and `INITIAL_FILTERS` |
| AgenciesPage.ResetShowsAllAffordable | src/app/agencies/page.tsx:23-28 | after a reset every agency priced within 2000000 with a non-negative rating is listed, in order |
| FilterSidebar.Toggle | src/components/FilterSidebar.tsx:18-20 | the entry is listed afterwards exactly when it was not before; removal keeps an in-order subsequence, addition appends the entry at the end |
| FilterSidebar.ToggleFlipsMembership | src/components/FilterSidebar.tsx:18-20 | after a toggle the entry is listed iff it was not before; every other entry keeps its membership |
| FilterSidebar.ToggleRemovesEveryOccurrence | src/components/FilterSidebar.tsx:19 | toggling a listed entry removes every occurrence and keeps the other entries, with their counts, in order |
| FilterSidebar.ToggleAbsentTwiceRestores | src/components/FilterSidebar.tsx:18-20 | toggling an absent entry appends it, and toggling it again restores the list |
| FilterSidebar.HandleLocationToggle | src/components/FilterSidebar.tsx:17-22 | the location list becomes its toggle: the location flips membership, every other location keeps its membership, and the event types, budget and rating are untouched |
| FilterSidebar.HandleEventTypeToggle | src/components/FilterSidebar.tsx:24-29 | the event-type list becomes its toggle: the event type flips membership, every other type keeps its membership, and the locations, budget and rating are untouched |
| FilterSidebar.HandleBudgetChange | src/components/FilterSidebar.tsx:31-33 | only the budget ceiling is replaced |
| FilterSidebar.HandleRatingChange | src/components/FilterSidebar.tsx:35-37 | only the minimum rating is replaced |
| HomePage.AgencyPortalLinkShown | src/app/page.tsx:9-20 | the Agency Portal link is hidden exactly when the session's role is "USER" |
| HomePage.AuthButton | src/app/page.tsx:22-36 | the header shows Dashboard exactly when there is a session, Login otherwise |
| HomePage.SearchParams | src/app/page.tsx:46-48 | the parameters hold `q` iff the search is non-empty and `location` iff the location is non-empty, `q` first |
| HomePage.SearchTarget | src/app/page.tsx:43-51 | no navigation when both fields are empty; otherwise `/agencies` with those parameters |
| HomePage.HandleSearch | src/app/page.tsx:43-51 | the click handler navigates to the search target |
| HomePage.HandleKeyDown | src/app/page.tsx:53-57 | Enter behaves like the search button and every other key does nothing |
| HomePage.GetParam | src/app/agencies/page.tsx:38-40 | a parameter lookup returns the first value stored under the key, or nothing when the key is absent |
| HomePage.SearchRoundTrip | src/app/page.tsx:43-51 | the agencies page opened by a search starts with the sent query and with `[location]` as its only location |
| FestivalsPage.MatchesSearch | src/app/festivals/page.tsx:73-74 | the empty query finds every festival, and a festival's own name finds it |
| FestivalsPage.MatchesCategory | src/app/festivals/page.tsx:75 | definition only: "All" or the festival's own category; its consequences are `AllDisablesFilters` |
| FestivalsPage.MatchesStatus | src/app/festivals/page.tsx:76 | definition only: "All" or the festival's own status; its consequences are `AllDisablesFilters` |
| FestivalsPage.FilteredFestivals | src/app/festivals/page.tsx:72-79 | the in-order subsequence of the festival table passing search, category and status |
| FestivalsPage.AllDisablesFilters | src/app/festivals/page.tsx:75-76 | "All" passes every festival; any other category or status must be equal |
| FestivalsPage.ClearAllShowsEverything | src/app/festivals/page.tsx:221-225 | after "Clear All Filters" the whole table is shown |
| FestivalsPage.TableIsWellFormed | src/app/festivals/page.tsx:6-65 | each festival's category and status is a listed choice other than "All", and the ids are distinct |
| AgenciesApi.SplitTags | src/app/api/agencies/route.ts:28 | absent or empty tags give `[]`; otherwise the tags split on ',' |
| AgenciesApi.SplitTagsRoundTrip | src/app/api/agencies/route.ts:28 | joining the split tags with ',' rebuilds the stored string |
| AgenciesApi.SplitTagsShape | src/app/api/agencies/route.ts:28 | no piece contains ',' and there is one piece more than there are commas |
| AgenciesApi.EmptyTagKept | src/app/api/agencies/route.ts:28 | a doubled comma keeps an empty tag between its neighbours |
| AgenciesApi.ParsePortfolio | src/app/api/agencies/route.ts:19-25 | the parsed array, or `[]` when parsing throws or gives something that is not an array |
| AgenciesApi.Format | src/app/api/agencies/route.ts:26-30 | every other field is copied; tags and portfolio are the formatted ones |
| AgenciesApi.FormatAgencies | src/app/api/agencies/route.ts:18-31 | one formatted agency per row, in order |
| AgenciesApi.Get | src/app/api/agencies/route.ts:5-41 | a store failure is 500 "Failed to fetch agencies"; otherwise the formatted rows |
| AgenciesApi.FormatKeepsRatingOrder | src/app/api/agencies/route.ts:11-18 | rows that come rating-descending stay rating-descending after formatting |
| Store.Database.FindUserByEmail | src/app/api/bookings/route.ts:24-26 | the user with the email, unique by the store invariant, or nothing exactly when no user has it |
| Store.Database.FindAgencyByOwner | src/app/api/chat/route.ts:15-18 | the agency owned by the user, or nothing when none is |
| Store.Database.FindConversation | src/app/api/chat/route.ts:77-84 | the conversation of the pair, or nothing when there is none |
| BookingsRoute.PackageOrCustom | src/app/api/bookings/route.ts:41 | an absent or empty package type becomes "CUSTOM", any other is kept |
| BookingsRoute.Post | src/app/api/bookings/route.ts:8-56 | 401 with no session email, a store failure 500, an unknown user 404, an agency id naming no agency 500, each leaving the store unchanged; otherwise exactly one new PENDING booking with the caller's id and the given agency, date and amount |
| BookingsRoute.DoubleBookingAccepted | src/app/api/bookings/route.ts:35-44 | two bookings of the same agency on the same day both succeed, with distinct ids |
| RegisterRoute.RoleFor | src/app/api/auth/register/route.ts:29 | the role is AGENCY_OWNER exactly when an agency name is given |
| RegisterRoute.NewUser | src/app/api/auth/register/route.ts:31-40 | the stored user has the request's fields, the hashed password and the derived role |
| RegisterRoute.NewAgency | src/app/api/auth/register/route.ts:43-57 | the agency is owned by the new user, with "Unknown" for an empty location and the fixed defaults |
| RegisterRoute.WithoutPassword | src/app/api/auth/register/route.ts:59-62 | the response has every user field except the password |
| RegisterRoute.Post | src/app/api/auth/register/route.ts:5-70 | a missing field is 400, a duplicate email 400 and a failed lookup 500, none changing the store; success adds the user and, for an agency name, its agency, and holds exactly when nothing failed |
| RegisterRoute.CreateAccount | src/app/api/auth/register/route.ts:28-62 | a failed user insert changes nothing; a failed agency insert keeps the user and answers 500 |
| RegisterRoute.RegisterTwice | src/app/api/auth/register/route.ts:17-26 | a second registration with an email that succeeded is "User already exists" |
| RegisterRoute.RetryAfterAgencyFailure | src/app/api/auth/register/route.ts:31-57 | after the agency insert fails, retrying the same sign-up is refused as a duplicate and no agency exists |
| ChatRoute.Involving | src/app/api/chat/route.ts:26-40 | on the agency side the ids of the conversations with the agency, on the user side those of the user |
| ChatRoute.LatestExists | src/app/api/chat/route.ts:35 | a non-empty set of conversations has one updated no earlier than all others |
| ChatRoute.OrderByUpdatedDesc | src/app/api/chat/route.ts:35 | every kept conversation exactly once, ordered by `updatedAt` descending |
| ChatRoute.Get | src/app/api/chat/route.ts:7-58 | 401, 500 and 404 as in the handler; an agency owner with an agency gets that agency's conversations, anyone else their own, latest first |
| ChatRoute.Post | src/app/api/chat/route.ts:60-102 | 401, 500 and 404 change nothing; an existing conversation is returned unchanged; an agency id naming no agency is a 500; otherwise exactly one conversation is created for the pair |
| ChatRoute.PostTwice | src/app/api/chat/route.ts:77-94 | repeating the request returns the same conversation and adds nothing more |
| DeleteRoute.WithoutUser | src/app/api/user/delete/route.ts:18-19 | exactly the rows of other users, unchanged; used for the bookings and the reviews |
| DeleteRoute.Delete | src/app/api/user/delete/route.ts:4-31 | the target is always "demo@planify.com"; absent is 404 and a store failure 500, both changing nothing; otherwise that user, their bookings and their reviews go together and everything else stays |
| LeadPipeline.Stages | src/components/LeadPipeline.tsx:23-27 | three stages, New Leads, In Progress and Closed, holding the three lead lists |
| LeadPipeline.Offered | src/components/LeadPipeline.tsx:51-75 | a new lead offers CONFIRMED and CANCELLED, one in progress COMPLETED, a closed one nothing, and nothing without a callback |
| LeadPipeline.StagesInOrder | src/components/LeadPipeline.tsx:31-37 | the stage keys come in order and the displayed counts add up to all leads |
| Lifecycle.OfferedStepsAreTheLifecycle | src/components/LeadPipeline.tsx:51-75 | the agency buttons together with the customer's cancel give exactly the lifecycle steps |
| Lifecycle.AgencyStepsAreLifecycleSteps | src/components/LeadPipeline.tsx:51-75 | every status an agency button sends is a lifecycle step from that stage's status |
| AgencyDashboard.CountStatus | src/app/dashboard/agency/page.tsx:48-49 | a count of bookings no larger than the list |
| AgencyDashboard.CalculateStats | src/app/dashboard/agency/page.tsx:47-62 | active = PENDING + CONFIRMED, completed = COMPLETED, revenue = 2450000 + the COMPLETED amounts, and the rating is carried over |
| AgencyDashboard.FilterCount | src/app/dashboard/agency/page.tsx:49 | the status filter's length is the status count |
| AgencyDashboard.ActiveCount | src/app/dashboard/agency/page.tsx:48 | the active filter's length is the PENDING count plus the CONFIRMED count |
| AgencyDashboard.RevenueAtLeastBase | src/app/dashboard/agency/page.tsx:52-60 | with non-negative amounts the revenue never falls below the base |
| AgencyDashboard.UpdateStatus | src/app/dashboard/agency/page.tsx:67-69 | same length and order; only bookings with the id get the new status |
| AgencyDashboard.NewLead | src/app/dashboard/agency/page.tsx:94-101 | a new lead carries the booking's fields, "Unknown Client" for a missing name and the package plus " Event" |
| AgencyDashboard.OtherLead | src/app/dashboard/agency/page.tsx:102-117 | a later lead carries the booking's fields, "Client" for a missing name and the package as is |
| AgencyDashboard.MapLeads | src/app/dashboard/agency/page.tsx:94-117 | one lead per booking, in order |
| AgencyDashboard.Pipeline | src/app/dashboard/agency/page.tsx:93-118 | the new, in-progress and closed leads are the PENDING, CONFIRMED and COMPLETED bookings in order |
| AgencyDashboard.StagesByStatus | src/app/dashboard/agency/page.tsx:94-110 | each stage holds only its status, so the stages are disjoint and CANCELLED appears in none |
| AgencyDashboard.StatsMatchPipeline | src/app/dashboard/agency/page.tsx:48-118 | active leads = new + in progress and completed events = closed, by count |
| AgencyDashboard.MockFacts | src/app/dashboard/agency/page.tsx:9-16 | the mock table has six months, September lowest at 320000 and December highest at 520000 |
| AgencyDashboard.MockMax | src/app/dashboard/agency/page.tsx:9-16 | December's 520000 is the largest revenue of the mock months |
| AgencyDashboard.MockChart | src/app/dashboard/agency/page.tsx:9-16 | December's bar is full and all six bars lie in [0, 100] |
| AgencyDashboard.MockLowestBar | src/app/dashboard/agency/page.tsx:9-16 | September's bar is the lowest of the six |
| AgencyDashboard.Dashboard.constructor | src/app/dashboard/agency/page.tsx:19-26 | no bookings and the initial stats, which agree |
| AgencyDashboard.Dashboard.Load | src/app/dashboard/agency/page.tsx:32-45 | an ok answer stores the bookings and recomputes the stats; otherwise nothing changes |
| AgencyDashboard.Dashboard.BeginStatusUpdate | src/app/dashboard/agency/page.tsx:64-70 | the bookings shown become the snapshot; the change is shown at once with stats recomputed from it |
| AgencyDashboard.Dashboard.ResolveStatusUpdate | src/app/dashboard/agency/page.tsx:72-89 | success leaves the page alone; failure puts the snapshot back, whatever is shown, with stats recomputed from it |
| AgencyDashboard.Dashboard.HandleStatusUpdate | src/app/dashboard/agency/page.tsx:64-90 | with no overlapping update: success keeps the updated bookings and their stats; failure restores the snapshot and, from agreeing stats, the old stats |
| AgencyDashboard.OverlappingUpdatesLoseOne | src/app/dashboard/agency/page.tsx:66-87 | a later update that succeeds is lost from the page when an earlier one fails and reverts to its snapshot |
| UserBookingsPage.CancelById | src/app/dashboard/user/bookings/page.tsx:51-53 | same length and order; the booking with the id becomes CANCELLED and the others are unchanged |
| UserBookingsPage.CancelTwice | src/app/dashboard/user/bookings/page.tsx:51-53 | cancelling twice is cancelling once |
| UserBookingsPage.CancelEffect | src/app/dashboard/user/bookings/page.tsx:51-53 | a cancel changes the status of the matching booking only, and no other field |
| UserBookingsPage.FilteredBookings | src/app/dashboard/user/bookings/page.tsx:63-65 | "ALL" is the whole list; a status gives exactly its bookings, in order and each as often as in the input |
| UserBookingsPage.MyBookingsPage.constructor | src/app/dashboard/user/bookings/page.tsx:20-40 | the fetched bookings with the "ALL" filter |
| UserBookingsPage.MyBookingsPage.HandleCancel | src/app/dashboard/user/bookings/page.tsx:42-61 | a confirmed, successful cancel cancels the booking; a declined confirm or failed request changes nothing |
| UserBookingsPage.MyBookingsPage.Visible | src/app/dashboard/user/bookings/page.tsx:63-65 | only loaded bookings are shown |
| UserDashboard.TotalSpent | src/app/dashboard/user/page.tsx:52 | no bookings spend 0, and non-negative amounts never give a negative total |
| UserDashboard.PartyPoints | src/app/dashboard/user/page.tsx:53 | the points are the floor of one hundredth of the spend |
| UserDashboard.EmptyGivesZero | src/app/dashboard/user/page.tsx:52-53 | no bookings give 0 spent and 0 points |
| UserDashboard.PointsBounds | src/app/dashboard/user/page.tsx:52-53 | with non-negative amounts the spend is non-negative and 0 <= points <= spend / 100 |
| UserDashboard.NewBookingNeverLowers | src/app/dashboard/user/page.tsx:52-53 | a new booking with a non-negative amount lowers neither the spend nor the points |
| UserDashboard.CancelKeepsSpent | src/app/dashboard/user/page.tsx:52 | cancelling leaves the total unchanged, since cancelled bookings still count |
| BudgetBuddy.Spent | src/components/BudgetBuddy.tsx:40-42 | non-negative amounts give a non-negative spend, and bookings that are all cancelled spend nothing |
| BudgetBuddy.SpentAtMostTotal | src/components/BudgetBuddy.tsx:40-42 | the widget's spend skips CANCELLED bookings, so it lies between 0 and the dashboard total and equals it when nothing is cancelled |
| BudgetBuddy.Percentage | src/components/BudgetBuddy.tsx:66 | spending exactly the budget is 100%; with a positive budget it is above 100% exactly when overspent, and never negative for a non-negative spend |
| BudgetBuddy.AdviceFor | src/components/BudgetBuddy.tsx:66-72 | each message holds exactly on its band: above 100, above 90, above 75, above 50, otherwise |
| BudgetBuddy.GetAiMessage | src/components/BudgetBuddy.tsx:63-73 | a budget of 0 always asks to set a budget; otherwise advice by percentage |
| BudgetBuddy.AdviceMonotone | src/components/BudgetBuddy.tsx:68-72 | the advice never gets milder as the percentage grows |
| BudgetBuddy.ThresholdsAreStrict | src/components/BudgetBuddy.tsx:68-72 | exactly 100% gives "very close" and exactly 50% gives "great start" |
| BudgetBuddy.Width | src/components/BudgetBuddy.tsx:117 | 0 for a budget of at most 0, otherwise the percentage capped at 100 |
| BudgetBuddy.WidthBounds | src/components/BudgetBuddy.tsx:117 | for a non-negative spend the width lies in [0, 100] |
| BudgetBuddy.IsRed | src/components/BudgetBuddy.tsx:116 | a red bar always comes with the exceeded alert |
| BudgetBuddy.RedMeansFullAndExceeded | src/components/BudgetBuddy.tsx:116-117 | a red bar is full, and is red exactly when the advice says the budget is exceeded |
| PackageSelection.Select | src/components/checkout/PackageSelection.tsx:53-57 | a click reports the card's id and the base price times its multiplier |
| PackageSelection.TableShape | src/components/checkout/PackageSelection.tsx:13-42 | three packages, BASIC, STANDARD and PREMIUM, distinct, with only STANDARD popular |
| PackageSelection.PricesOrdered | src/components/checkout/PackageSelection.tsx:53 | BASIC costs the base price, STANDARD 1.5 times, PREMIUM 2.5 times, ordered for a non-negative base |
| PaymentForm.Compute | src/components/checkout/PaymentForm.tsx:12-14 | GST is 18%, the total 1.18 times the subtotal and the deposit a quarter of the total, 0.295 times the subtotal |
| PaymentForm.Bounds | src/components/checkout/PaymentForm.tsx:12-14 | for a non-negative subtotal 0 <= deposit <= total and subtotal <= total |
| RevenueChart.MaxRevenue | src/components/RevenueChart.tsx:11 | an upper bound of every revenue that some item attains |
| RevenueChart.Height | src/components/RevenueChart.tsx:17 | a revenue between 0 and the maximum draws a bar between 0 and 100, and the maximum itself a full bar |
| RevenueChart.HeightsBy | src/components/RevenueChart.tsx:16-17 | one height per item, in order, each its revenue over the maximum times 100 |
| RevenueChart.Heights | src/components/RevenueChart.tsx:10-17 | no data draws no bars, a zero maximum has no usable heights, and otherwise the per-item heights |
| RevenueChart.HeightsInRange | src/components/RevenueChart.tsx:17 | with non-negative revenues and a positive maximum every bar lies in [0, 100] |
| RevenueChart.MaxBarsFull | src/components/RevenueChart.tsx:11-17 | every item with the largest revenue gets height 100 |
| RevenueChart.PeakChart | src/components/RevenueChart.tsx:11-17 | an item with the largest, positive revenue is the maximum and fills its bar, and with no negative revenue every bar lies in [0, 100] |
| RevenueChart.LowestBar | src/components/RevenueChart.tsx:16-17 | the item with the smallest revenue draws the lowest bar |
| RevenueChart.HeightsKeepOrder | src/components/RevenueChart.tsx:16-17 | a larger revenue never draws a lower bar and equal revenues draw equal bars |
| Toaster.WithoutId | src/components/ui/toaster.tsx:34 | every toast with the id removed, the others in order and each as often as before |
| Toaster.DismissUnknown | src/components/ui/toaster.tsx:34 | dismissing an unknown id changes nothing |
| Toaster.PushThenDismiss | src/components/ui/toaster.tsx:21-35 | pushing a toast with a fresh id and dismissing it restores the queue |
| Toaster.ToastCenter.constructor | src/components/ui/toaster.tsx:13-14 | no toasts and no listeners |
| Toaster.ToastCenter.Notify | src/components/ui/toaster.tsx:16-18 | every listener is sent a copy of the current queue, and nothing else changes |
| Toaster.ToastCenter.ToastSuccess | src/components/ui/toaster.tsx:21-26 | one success toast is appended, every listener sees the new queue and the views of unmounted toasters stay as they were |
| Toaster.ToastCenter.ToastError | src/components/ui/toaster.tsx:27-32 | one error toast is appended, every listener sees the new queue and the views of unmounted toasters stay as they were |
| Toaster.ToastCenter.Dismiss | src/components/ui/toaster.tsx:33-36 | the queue loses the toasts with the id, every listener sees it and the views of unmounted toasters stay as they were |
| Toaster.ToastCenter.Subscribe | src/components/ui/toaster.tsx:40-43 | the callback is appended to the listeners; a new toaster starts with an empty view, one already listed keeps its view |
| Toaster.ToastCenter.Unsubscribe | src/components/ui/toaster.tsx:44-46 | an unmounted toaster leaves the listeners and its view is dropped |
| Toaster.ToastCenter.Render | src/components/ui/toaster.tsx:49-65 | a toaster renders nothing exactly when its view is empty |
| Toaster.ToastThenDismiss | src/components/ui/toaster.tsx:21-36 | a toast followed by its timed dismissal leaves the queue as before and sends every mounted toaster the old queue; the listeners and the views of unmounted toasters are unchanged |
| ChatPage.FindIndex | src/app/chat/page.tsx:48 | the first chat with the id, or nothing when no chat has it |
| ChatPage.NewChat | src/app/chat/page.tsx:53-60 | the new chat has the id, the decoded name, no unread messages, the placeholder text and the raw name's first character |
| ChatPage.TableIsDistinct | src/app/chat/page.tsx:10-35 | the mock conversations have distinct ids |
| ChatPage.ChatPageState.constructor | src/app/chat/page.tsx:42-43 | the mock list with its first chat selected |
| ChatPage.ChatPageState.OpenFromParams | src/app/chat/page.tsx:45-65 | without both parameters nothing changes; a known id is selected; a new id prepends one chat and selects it; the selected id is the parameter and distinct ids stay distinct |
| ChatPage.OpenTwice | src/app/chat/page.tsx:45-65 | opening the same agency twice adds at most one chat |
| ChatWindow.InitialThread | src/components/ChatWindow.tsx:19-38 | three opening messages, from agency, user and agency |
| ChatWindow.ChatWindowState.constructor | src/components/ChatWindow.tsx:18-40 | the opening thread, an empty input and no typing indicator |
| ChatWindow.ChatWindowState.SetInput | src/components/ChatWindow.tsx:39 | typing replaces only the input |
| ChatWindow.ChatWindowState.HandleSend | src/components/ChatWindow.tsx:51-76 | blank input changes nothing; otherwise one user message with the untrimmed input is appended, the input cleared, typing set and a reply scheduled |
| ChatWindow.ChatWindowState.ReplyArrives | src/components/ChatWindow.tsx:66-75 | typing clears and one agency message with the fixed text is appended |
| ChatWindow.SendAndReply | src/components/ChatWindow.tsx:51-76 | a send and its reply add the user's message and then the agency's, keeping the thread |
| AgencyProfile.OrEmpty | src/app/dashboard/agency/profile/page.tsx:41 | a present non-empty value, otherwise "" |
| AgencyProfile.LoadProfile | src/app/dashboard/agency/profile/page.tsx:32-56 | a request answered without ok toasts "Failed to load profile" and keeps the form; a `fetch` that throws and a portfolio that fails to parse both keep the form silently; otherwise the form takes the profile with "" and `[]` defaults |
| AgencyProfile.MissingColumnsDefault | src/app/dashboard/agency/profile/page.tsx:41-45 | a profile without description, tags or portfolio loads as "", "" and `[]` |
| AgencyProfile.AddImage | src/app/dashboard/agency/profile/page.tsx:86-93 | an empty URL changes nothing; otherwise the URL is appended and the box cleared, nothing else changing |
| AgencyProfile.AddKeepsDuplicates | src/app/dashboard/agency/profile/page.tsx:90 | adding a URL already present stores it twice |
| AgencyProfile.RemoveAt | src/app/dashboard/agency/profile/page.tsx:98 | a valid index drops exactly that element, keeping the rest in order; any other index changes nothing |
| AgencyProfile.RemoveImage | src/app/dashboard/agency/profile/page.tsx:95-100 | only the portfolio changes |
| AgencyProfile.RemoveAtMultiset | src/app/dashboard/agency/profile/page.tsx:98 | removal drops one occurrence of the element at the index and nothing else |
| AgencyProfile.AddThenRemove | src/app/dashboard/agency/profile/page.tsx:86-100 | adding an image and removing the last index restores the portfolio |

## Left out

- `toLowerCase` is modelled on ASCII letters only; no Unicode case mapping.
- `bcrypt.hash`, `JSON.parse` and `decodeURIComponent` are opaque function parameters.
- ChatPage.ChatPageState.OpenFromParams: `decode` is a total function, while `decodeURIComponent` throws a URIError on a malformed escape such as a lone `%`; the thrown error of the effect is not modelled, and the name it receives has already been decoded once by `searchParams.get`.
- BudgetBuddy: the budget is a real number, so the NaN that `parseInt` gives for a non-numeric saved value (src/components/BudgetBuddy.tsx:28) is not represented; in the source a NaN budget is not 0 and every comparison on it is false, so the advice falls through to "Great start".
- `URLSearchParams.toString` (section 5.2 of the WHATWG URL Standard) is not serialised: the search target is the ordered parameter list.
- Timers, `Math.random` and `Date.now` become inputs or separate steps. Toast and message ids and timestamps are parameters. The reply delay is the `ReplyArrives` step. The auto-dismiss is a later `Dismiss` call.
- Booking status is a four-value enum; an arbitrary status string sent to the PATCH route is not representable.
- Request bodies are taken as already parsed. An absent register field is the empty string. A malformed JSON body (a 500 in the source) is not modelled.
- Prisma failures are a `storeFails` input, or a fault position for registration. The source's failures at other points (session lookup, response encoding) are not distinguished.
- RegisterRoute.Post is sequential: concurrent registrations racing past the duplicate check are not modelled.
- ChatRoute.Get returns the conversations only. The joined user or agency name and the last message (`include`) are not modelled.
- ChatRoute.Post does not model the database's unique index on the pair. Uniqueness is instead an invariant of `Store.Database` that the handler keeps.
- DeleteRoute.Delete models only the three deletions in the handler. Schema-level cascades (for example of the user's conversations and messages) are not part of this model.
- Dates are integers. `new Date(date)`, `toLocaleDateString`, `toLocaleTimeString` and `toLocaleString` are not modelled.
- Floating point is modelled as exact reals. The binary rounding of 0.8, 1.2, 0.18, 0.25 and 0.01 is ignored.
- RevenueChart.Heights returns an `Option` rather than requiring data with a positive maximum. The source does not guard an all-zero chart, whose heights would be NaN or infinite. An empty chart draws no bars.
- RevenueChart.HeightsKeepOrder states order preservation. Proportionality itself is the per-item formula in `HeightsBy`, not a separate lemma relating two items' ratios.
- AgenciesApi.FormatKeepsRatingOrder takes the database's rating ordering as an input property of the rows.
- UserBookingsPage.MyBookingsPage.Visible states only that shown bookings are loaded ones; the exact list is `FilteredBookings`, whose contract states it.
- AgencyDashboard.Dashboard.HandleStatusUpdate composes `BeginStatusUpdate` and `ResolveStatusUpdate` with nothing in between, so its contract covers only an update that no other overlaps. The overlap that loses an update is `OverlappingUpdatesLoseOne`. A second click before the page re-renders is not modelled: that handler still reads the stale `bookings` of the earlier render, so the first click's change also drops from view.
- The foreign keys from bookings and conversations to agencies are modelled as the `Store.AgencyLinksOk` invariant, with an unknown agency refused by the insert as a 500. The Prisma schema is not part of this model, so the other foreign keys (users of bookings, reviews and conversations, messages) are not modelled.
- The signed-in user's session and the role check come from NextAuth. They are inputs, not modelled.
- `isMuhurat` in the checkout date picker is not part of this model (it depends on locale- and time-zone-dependent `Date` parsing).
- The read and update routes for user bookings, agency bookings and the agency profile are ORM pass-throughs, and are not modelled. So is the booking PATCH route, which is not among the core files.
- React rendering, effects, `localStorage` (the budget widget's saved budget), `alert`, `confirm` and router navigation are outside the model. `confirm` and request success are inputs to the handlers.
- AgencyProfile.LoadProfile: a portfolio column that parses to something other than an array is taken as an array, since the form's type cannot hold it; the source would store the non-array value.
- The agency profile's `handleSave` is a request around I/O and is not modelled.
