# Seyone Academy site — verified model of its behavioural core

This project models, in Dafny, the parts of the Seyone Medical Coding Academy
web site (a React/TypeScript single-page app) and its logo helper script that
carry behaviour rather than layout:

- the mock authentication store kept in browser storage (register, login,
  logout, current user);
- the course catalog page: four programs, a level filter and a
  case-insensitive free-text search;
- the SmartPath chat widget and the career-advisor service behind it;
- the student dashboard: notifications (unread count, message history, mark
  read, mock instructor replies), the message composer guard, the month
  calendar grid and month navigation;
- the testimonial carousel index;
- the white-to-transparent pixel pass of the background-removal script.

Modules: `Wrappers` (Option), `Seqs` (the `filter` of JavaScript arrays),
`Text` (`trim`, ASCII `toLowerCase`, `includes`), `Auth`, `Courses`,
`CatalogText` (facts about the catalog's literal texts used by the search
proofs),
`Advisor`, `Chat`, `Dashboard`, `Carousel`, `Pixels`. State that the code
updates in place (the storage keys, React state of the chat widget, the
dashboard and the carousel) is a class whose methods are specified against
pure functions; code that only computes is functions and lemmas.

Clocks, random draws and generated ids are parameters (`now`, `draw`,
`stamp`); the generation call of the advisor is a function parameter
`service`; the calendar's date formatter is a function parameter
`dateLabel`.

## Model

| member | source | states |
|---|---|---|
| Seqs.Filter | pages/CoursesPage.tsx:53 | `Array.filter`: the result is a subsequence of the input, holds only passing elements, and holds every passing element |
| Seqs.FilterCounts | pages/CoursesPage.tsx:53 | every passing element is kept as many times as it occurs and every other element is dropped; with the subsequence property this fixes the result |
| Seqs.FilterKeepsAll | pages/CoursesPage.tsx:53 | filtering returns the whole list exactly when every element passes |
| Seqs.FilterDropsAll | pages/DashboardPage.tsx:115 | filtering returns nothing exactly when no element passes |
| Seqs.FilterIdempotent | pages/CoursesPage.tsx:52-62 | filtering a filtered list again with the same test changes nothing |
| Seqs.FilterSame | pages/CoursesPage.tsx:52-62 | two tests that agree on every element filter a list alike |
| Text.Trim | components/SmartPathAI.tsx:38 | `trim()`: the result is a slice of the input with only whitespace cut off in front and behind, starts and ends with non-whitespace, and is empty exactly when the input is all whitespace |
| Text.TrimNoOp | components/SmartPathAI.tsx:38 | a text without whitespace at either end is left as it is |
| Text.TrimIdempotent | components/SmartPathAI.tsx:38 | trimming twice is trimming once |
| Text.Lower | pages/CoursesPage.tsx:56-58 | `toLowerCase()` keeps the length and lower-cases each ASCII capital |
| Text.LowerIdempotent | pages/CoursesPage.tsx:56-58 | lower-casing twice is lower-casing once |
| Text.Contains | pages/CoursesPage.tsx:56-58 | `includes`: the needle occurs at some position of the text |
| Text.ContainsEmpty | pages/CoursesPage.tsx:56-58 | `includes("")` holds for every text |
| Auth.EmailTaken | services/authService.ts:15 | the uniqueness scan answers true exactly when some stored user has the email |
| Auth.FirstMatch | services/authService.ts:30 | `find` at login: the index of the first user whose email and password both match, none exactly when no user matches; a user stored without a password never matches |
| Auth.AppendKeepsDistinct | services/authService.ts:15-20 | appending a user whose email is not taken keeps all stored emails distinct |
| Auth.LoginFindsOwner | services/authService.ts:30 | with distinct emails, the user a successful login finds is the one account holding that email |
| Auth.AuthStore.constructor | services/authService.ts:12-13 | both storage keys absent: no users, nobody signed in |
| Auth.AuthStore.FromStorage | services/authService.ts:12-13 | a missing users key reads as the empty list; the session is whatever is stored |
| Auth.AuthStore.Register | services/authService.ts:11-24 | a taken email fails with "Email already exists" and changes nothing; otherwise the user is appended at the end, the session becomes its name and email, one change event is sent, and distinct emails stay distinct |
| Auth.AuthStore.Login | services/authService.ts:26-39 | never touches the user list; succeeds exactly when some user matches email and password, then signs in the first such user; otherwise fails with "Invalid email or password" and keeps the session |
| Auth.AuthStore.Logout | services/authService.ts:41-44 | afterwards nobody is signed in, whatever the state before, so a second logout leaves the same session state |
| Auth.AuthStore.GetCurrentUser | services/authService.ts:46-49 | returns the stored session, or none, and changes nothing |
| Courses.FilteredCourses | pages/CoursesPage.tsx:52-62 | the listed courses keep catalog order, and a course is listed exactly when its level passes the filter and the lower-cased query occurs in its lower-cased title, description or some module |
| Courses.FilterTwice | pages/CoursesPage.tsx:52-62 | applying the same filter and query to the listed courses lists them again unchanged |
| Courses.NoCriteriaShowsAll | pages/CoursesPage.tsx:54-58 | 'All' with an empty query lists every course |
| Courses.ClearFilters | pages/CoursesPage.tsx:64-67 | resets to 'All' and the empty query, under which the whole catalog is listed |
| Courses.SearchIgnoresCase | pages/CoursesPage.tsx:55-57 | two queries that lower-case alike list the same courses |
| Courses.SearchLowered | pages/CoursesPage.tsx:55-57 | a query and its lower-cased form list the same courses |
| Courses.EmptyQueryByLevel | pages/CoursesPage.tsx:54-58 | with an empty query the level filter alone decides what is listed |
| Courses.BeginnerOnly | pages/CoursesPage.tsx:5-14 | 'Beginner' with an empty query lists only the basic coding program |
| Courses.HccInCrcTraining | pages/CoursesPage.tsx:42 | the query "HCC" matches the CRC program through its module on hierarchical condition categories |
| Courses.NoDoubleCNotFound | pages/CoursesPage.tsx:55-58 | a course none of whose title, description and modules holds two c's in a row (either case) does not match "HCC" |
| Courses.SearchHccListsCrc | pages/CoursesPage.tsx:52-62 | searching "HCC" under 'All' lists exactly the CRC program: its module matches and the other three programs do not |
| Advisor.RequestContents | services/gemini.ts:41-44 | the contents sent are the history unchanged, followed by one user turn carrying the message |
| Advisor.HasKey | services/gemini.ts:7 | the key counts only when it is set and not empty |
| Advisor.AdvisorResponse | services/gemini.ts:6-57 | rejects with "API Key not found" exactly when the key is missing or empty; otherwise resolves with a non-empty text that is the generated text, the rephrase request when that text is missing or empty, or the connection apology when the call fails |
| Advisor.NoKeyIgnoresService | services/gemini.ts:6-9 | without a key the outcome is the same rejection whatever the service would do |
| Advisor.TextPassedOn | services/gemini.ts:52 | a non-empty generated text is returned unchanged |
| Advisor.EmptyTextRephrase | services/gemini.ts:52 | a missing or empty generated text yields the fixed rephrase request |
| Advisor.FailureApologises | services/gemini.ts:53-56 | a failed call yields the fixed connection apology |
| Chat.OutgoingText | components/SmartPathAI.tsx:38 | the text a send uses: a clicked prompt when it is non-empty, else the input box, trimmed |
| Chat.OutgoingTextTrimmed | components/SmartPathAI.tsx:38-39 | the text sent has no whitespace at either end, and is empty (so the send is refused) exactly when the chosen text is all whitespace |
| Chat.ToHistory | components/SmartPathAI.tsx:48-51 | the history has one entry per displayed message, in order, each with that message's role and its content as a single text part |
| Chat.HistoryMatchesDisplay | components/SmartPathAI.tsx:44-53 | history plus the new user turn, as the advisor builds it, is exactly the displayed conversation after the user message is appended |
| Chat.ChatWidget.constructor | components/SmartPathAI.tsx:18-26 | the conversation starts as the single model greeting, with an empty input and no pending reply |
| Chat.ChatWidget.SetInput | components/SmartPathAI.tsx:140 | typing replaces the input text and keeps the widget invariant |
| Chat.ChatWidget.Begin | components/SmartPathAI.tsx:37-45 | an empty trimmed text, or any send while a reply is pending, changes nothing; otherwise the input clears, loading is set, exactly one user message with the trimmed text (a non-empty prompt taking precedence over the input) is appended, and the advisor is asked with the conversation before it |
| Chat.ChatWidget.Complete | components/SmartPathAI.tsx:53-65 | a resolved reply appends exactly one model message with its text, a rejection appends nothing, and loading ends in both cases |
| Chat.ChatWidget.HandleSend | components/SmartPathAI.tsx:37-66 | the conversation only grows; with a key an accepted send appends the user message and the advisor's non-empty answer to the pre-send conversation; without a key it appends the user message only |
| Chat.PromptsVisible | components/SmartPathAI.tsx:106 | the starter prompts show while fewer than five messages are displayed and no reply is pending |
| Chat.PromptsAfterTwoSends | components/SmartPathAI.tsx:106 | on a fresh widget the prompts show at first and after one sent prompt; after a second one they are gone exactly when the advisor is keyed (five messages), and stay without a key (three) |
| Chat.StarterPromptsSentVerbatim | components/SmartPathAI.tsx:10-15 | clicking a starter prompt sends that prompt exactly, whatever is in the input box |
| Dashboard.UnreadCount | pages/DashboardPage.tsx:115 | the number of unread notifications, zero exactly when all are read |
| Dashboard.MessageHistory | pages/DashboardPage.tsx:116 | exactly the 'Message' notifications, each as many times as it occurs, in list order |
| Dashboard.MarkRead | pages/DashboardPage.tsx:118-120 | same length and order; every notification with the id becomes read and every other is unchanged |
| Dashboard.MarkAll | pages/DashboardPage.tsx:122-124 | same length and order; each notification becomes read with its other fields kept |
| Dashboard.UnreadCountCons | pages/DashboardPage.tsx:151 | a notification put in front raises the unread count by one exactly when it is unread |
| Dashboard.MarkAllClearsUnread | pages/DashboardPage.tsx:122-124 | after marking all read the unread count is zero, and marking all again changes nothing |
| Dashboard.MarkReadClearsId | pages/DashboardPage.tsx:118-120 | no unread notification with the id remains, and every position keeps its id |
| Dashboard.MarkReadLowersUnread | pages/DashboardPage.tsx:118-120 | marking one id read never raises the unread count |
| Dashboard.MarkAllKeepsHistory | pages/DashboardPage.tsx:116 | after marking all read, the message history holds the same messages in the same order, each marked read |
| Dashboard.InitialCounts | pages/DashboardPage.tsx:53-78 | the page opens with two unread notifications and one message in the history |
| Dashboard.ReplyIndex | pages/DashboardPage.tsx:142 | `floor(random * 4)` for a draw in [0, 1) is a valid index of the mock replies |
| Dashboard.IncomingMessage | pages/DashboardPage.tsx:141-150 | the new notification is an unread 'Message' titled "Message from" plus the instructor's name, id "n-" plus the stamp, time "Just now", text one of the mock replies |
| Dashboard.DeadlinesOn | pages/DashboardPage.tsx:184 | the deadlines whose date string equals the given one, in list order |
| Dashboard.CalendarDays | pages/DashboardPage.tsx:172-188 | `firstDay` blank cells followed by one cell per day 1..daysInMonth in order, each carrying the deadlines due on that day's date string; length firstDay + daysInMonth |
| Dashboard.ShiftMonthAsWritten | pages/DashboardPage.tsx:190-192 | `new Date(y, m + offset, 1)`: month in 0..11 and month index shifted by the offset, except that a year in 0..99 is first read as 1900 + year |
| Dashboard.YearNinetyNineJumps | pages/DashboardPage.tsx:190-192 | one month back from January 100 gives December of year 99; one more gives November 1999 instead of November of year 99 |
| Dashboard.ShiftMonth | pages/DashboardPage.tsx:190-192 | the month whose index year * 12 + month is shifted by the offset, with the month in 0..11 |
| Dashboard.AsWrittenAgrees | pages/DashboardPage.tsx:190-192 | outside years 0..99 the code as written and the month index agree |
| Dashboard.ShiftMonthCompose | pages/DashboardPage.tsx:190-192 | two moves by a and b are one move by a + b |
| Dashboard.BackAndForth | pages/DashboardPage.tsx:190-192 | one month back then one forward returns to the same month |
| Dashboard.DashboardPage.constructor | pages/DashboardPage.tsx:102-111 | opens on October 2023 with the three initial notifications, panels closed, the first instructor selected, an empty composer |
| Dashboard.DashboardPage.MarkAsRead | pages/DashboardPage.tsx:118-120 | the list becomes its marked form and the unread count does not grow |
| Dashboard.DashboardPage.MarkAllAsRead | pages/DashboardPage.tsx:122-124 | the list becomes its all-read form and the unread count is zero |
| Dashboard.DashboardPage.TriggerIncomingMessage | pages/DashboardPage.tsx:141-153 | exactly one new unread message goes in front of the old list, which is kept intact, the unread count grows by one, and the panel opens |
| Dashboard.DashboardPage.ComposeTo | pages/DashboardPage.tsx:600-601 | selects the instructor and opens the composer |
| Dashboard.DashboardPage.SetMessageText | pages/DashboardPage.tsx:224 | typing replaces the composer text |
| Dashboard.DashboardPage.HandleSendMessage | pages/DashboardPage.tsx:155-159 | sending starts exactly when the text is not all whitespace; otherwise nothing changes |
| Dashboard.DashboardPage.FinishSending | pages/DashboardPage.tsx:161-164 | sending ends, the composer closes and is emptied |
| Dashboard.DashboardPage.ChangeMonth | pages/DashboardPage.tsx:190-192 | the shown month moves by the offset and stays a month in 0..11 |
| Carousel.NextIndex | components/TestimonialSection.tsx:60-61 | the next index is in range: the following story, or the first after the last |
| Carousel.PrevIndex | components/TestimonialSection.tsx:65-66 | the previous index is in range: the preceding story, or the last before the first |
| Carousel.NextPrevInverse | components/TestimonialSection.tsx:60-67 | next then previous, and previous then next, return to the starting index |
| Carousel.Advance | components/TestimonialSection.tsx:55-57 | any number of next steps or ticks keeps the index in range |
| Carousel.AdvanceIsModular | components/TestimonialSection.tsx:55-61 | k steps forward from i land on (i + k) mod 5 |
| Carousel.FullCycle | components/TestimonialSection.tsx:61 | five steps forward return to the starting story |
| Carousel.TestimonialCarousel.constructor | components/TestimonialSection.tsx:50 | the carousel starts on index 0 |
| Carousel.TestimonialCarousel.Next | components/TestimonialSection.tsx:60-63 | moves to the next index and stays in range |
| Carousel.TestimonialCarousel.Tick | components/TestimonialSection.tsx:55-57 | the timer tick moves exactly like the next button |
| Carousel.TestimonialCarousel.Prev | components/TestimonialSection.tsx:65-68 | moves to the previous index and stays in range |
| Carousel.TestimonialCarousel.DotClick | components/TestimonialSection.tsx:70-73 | sets the index to the clicked dot, which is always a valid story |
| Carousel.TestimonialCarousel.Current | components/TestimonialSection.tsx:82 | the story on show is the one at the index, whose id is the index plus one |
| Pixels.Whiten | remove_bg.py:14-17 | a pixel with red, green and blue all above 240 becomes transparent white; any other pixel is kept with its alpha |
| Pixels.Cleared | remove_bg.py:10-17 | the pass keeps length and order and treats each pixel on its own |
| Pixels.RemoveWhiteBackground | remove_bg.py:10-17 | the loop writes one pixel per input pixel, in order: near-white ones as transparent white, others unchanged |
| Pixels.ClearedIdempotent | remove_bg.py:14-15 | a second pass changes nothing, since transparent white is itself near-white |
| Pixels.AlphaIgnored | remove_bg.py:14 | the whiteness test does not look at alpha |

## Left out

- Browser storage and JSON: the two storage keys are the fields of `AuthStore`; parsing, serialising and corrupt stored JSON are not modelled.
- The `auth-change` window event is a ghost counter of dispatched events; the header's subscription is not modelled.
- Timers: the 1.5 s and 3 s delays of the dashboard composer and the carousel's 10 s interval are atomic steps (`FinishSending`, `TriggerIncomingMessage`, `Tick`). Restarting the interval on a click is not modelled.
- The instructor that a delayed reply comes from is passed to `TriggerIncomingMessage`. The stale-closure capture of the selected instructor is not modelled.
- The generation SDK call, the system instruction and the sampling settings are the `service` parameter of `AdvisorResponse`. The SDK client constructor is assumed not to throw.
- `Math.random`, `Date.now`, `new Date()` timestamps and `Intl.DateTimeFormat` strings are parameters. So are the weekday of the first of the month and the month length used by the calendar.
- Text.Lower: `toLowerCase` is modelled for ASCII capitals only; other Unicode case mappings are not modelled.
- Carousel.TestimonialCarousel.DotClick: it requires an index below five. The dots are rendered only for the five stories, and the handler itself does not check the index.
- Dashboard.DashboardPage.ChangeMonth uses the corrected month arithmetic. The Date constructor's 0..99 year rule is modelled separately, in `ShiftMonthAsWritten` (see Findings).
- Rendering, CSS, the printing of certificates, the avatar upload, scrolling, the header, the home, about, contact, login and signup pages, and the progress data are not modelled.
- The image open, RGBA conversion, bounding-box crop and save around the pixel loop are library I/O and are not modelled.

## Findings

| source | as written | input that shows it | evidently intended | confidence | as-written member | corrected member |
|---|---|---|---|---|---|---|
| pages/DashboardPage.tsx:190-192 | `new Date(year, month + offset, 1)` reads a year argument of 0..99 as 1900 + year | calendar on December of year 99 (one click back from January 100), `changeMonth(-1)`: shows November 1999 | move one month back, to November of year 99 | low impact (needs about 23,000 clicks back from 2023); not executed | Dashboard.YearNinetyNineJumps | Dashboard.ShiftMonthCompose |
