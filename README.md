# A verified model of the talent site's editing and display logic

The repository is a React and Supabase web site for a talent agency. Each actor has a
public profile: a hero image carousel, a career portfolio with video and still-cut
viewers, a visual archive grouped by category, editorials, and an inquiry form. The
site also has an admin area where staff edit actors and manage the staff list, the
per-actor staff assignments and the access-log statistics. A Supabase edge function
relays each inquiry to the assigned staff over Telegram.

This project models, in Dafny, the logic of those pieces:

- **The inquiry relay function** (`send-telegram`). It answers the CORS preflight and
  records the inquiry. It then sends one Telegram message per assigned staff member who
  has both credentials, and collects one result line per message.
- **The inquiry form.** It validates and trims the input and builds the request. It
  keeps or resets its contents depending on the outcome.
- **The staff pages.**
  - The two-slot staff assignment, with its save/load round trip.
  - The staff page's secret masking, master-mode password gate and save guard.
- **The access-log summary.** It tallies logs per actor and averages durations with
  `Math.round`. It sorts stably by views and formats durations and user agents.
- **`getYouTubeId`**, the leftmost regular-expression match over four URL prefixes.
- **The profile widgets.**
  - The visual-archive grouping: known categories come in a fixed order, then unknown
    ones in order of first appearance.
  - The carousels and modals with their wrap-around navigation.
  - The drag-and-drop move.
- **The admin actor form.**
  - The load effect and its defaults.
  - Every list editor: update at index, remove at index, append default, nested
    link/media edits.
  - The tabbed career and editorial editors, with the per-category filter and reorder.
  - `handleSave`: the guard, the row construction with blank filtering and contiguous
    `sort_order`, and the order of its database calls.

Each module follows one core file. Imperative code is modelled in imperative form:

- a component's `useState` cells are `ReactState.State` objects;
- handlers are methods that `modifies` those cells;
- loops are `while` loops with invariants.

Each such method is proved against a specification function, and the properties of
that function are lemmas. `Lists`, `TaggedLists`, `Text`, `Entities`, `Carousel` and
`Wrappers` hold what several files share.

The database, HTTP and the Deno runtime are outside the model. Where the behaviour
depends on them, it is supplied as data:

- the rows a query returns, the answer to each insert (an id or an error) and the
  outcome of each `fetch` are parameters;
- the calls the code makes are returned as a log;
- the master password and the site's constants are values copied from the source.

A claim about the model holds for every value of these parameters.

## Model

| member | source | states |
|---|---|---|
| SendTelegram.MessageTextLayout | supabase/functions/send-telegram/index.ts:43 | the text starts with the actor and sender lines, ends with the message and assignment label, and the organization segment changes it iff the organization is truthy |
| SendTelegram.CredentialedRows | supabase/functions/send-telegram/index.ts:40-42 | the increasing positions of exactly the rows whose staff has a truthy token and chat id |
| SendTelegram.ResultsFollowCredentialedRows | supabase/functions/send-telegram/index.ts:37-58 | one result line and one send per credentialed row, in row order; the k-th line reports the k-th credentialed row's own outcome (sent, response text, or error) |
| SendTelegram.ResultsAppend | supabase/functions/send-telegram/index.ts:40-59 | iterations are independent: results of two runs of rows concatenate, so a thrown call never stops later rows |
| SendTelegram.Handle | supabase/functions/send-telegram/index.ts:10-72 | OPTIONS answers a null body with CORS headers and makes no call; a body that fails to parse gives 500 with the error and no call; otherwise the insert, then the lookup, then the Telegram sends, and 200 with the collected results (empty for null assignments) |
| ContactSection.BuildInquiry | src/components/actor/ContactSection.tsx:21-34 | no body iff the name or the message is blank after trimming; otherwise the trimmed name and message (both non-empty), the trimmed organization or null exactly when it is blank, and the actor id and name unchanged |
| ContactSection.SubmittedOrganizationSegment | src/components/actor/ContactSection.tsx:32 | for a submitted form, the relayed message omits the organization segment exactly when the organization field was blank |
| ContactSection.ContactForm.constructor | src/components/actor/ContactSection.tsx:15-18 | the panel starts closed, with three empty fields and nothing sending |
| ContactSection.ContactForm.SetOpen | src/components/actor/ContactSection.tsx:51-60 | sets only `open` |
| ContactSection.ContactForm.EditName | src/components/actor/ContactSection.tsx:75 | sets only the name |
| ContactSection.ContactForm.EditOrganization | src/components/actor/ContactSection.tsx:76 | sets only the organization |
| ContactSection.ContactForm.EditMessage | src/components/actor/ContactSection.tsx:77 | sets only the message |
| ContactSection.ContactForm.BeginSubmit | src/components/actor/ContactSection.tsx:20-35 | a blank name or message gives the warning toast, no body and leaves `sending` alone; otherwise `sending` becomes true and the body is BuildInquiry of the form |
| ContactSection.ContactForm.CompleteSubmit | src/components/actor/ContactSection.tsx:36-44 | success shows the sent toast, empties the three fields and closes the panel; an error shows its message and keeps the form; `sending` ends false either way |
| StaffAssignmentSection.FindType | src/components/admin/sections/StaffAssignmentSection.tsx:21-22 | the index `find` stops at: the first row of the type, or the length when no row has it |
| StaffAssignmentSection.Resolve | src/components/admin/sections/StaffAssignmentSection.tsx:21-24 | never empty; the first row of the type decides: its staff id, or the sentinel when that id is empty; the sentinel when no row has the type; any other value is the staff id of a row of that type |
| StaffAssignmentSection.SaveList | src/components/admin/sections/StaffAssignmentSection.tsx:28-30 | at most two entries, none with the sentinel id and each with one of the two labels; the sales entry is present iff sales is chosen and comes first, the ad entry iff ad is chosen |
| StaffAssignmentSection.ResolveSingle | src/components/admin/sections/StaffAssignmentSection.tsx:21-24 | with a single row of the type, resolving gives its id, or the sentinel for an empty id |
| StaffAssignmentSection.FirstRowDecides | src/components/admin/sections/StaffAssignmentSection.tsx:20-22 | with two rows of one type the first decides: an empty first id gives the sentinel although a later row names a staff member, and a non-empty first id wins over the later one |
| StaffAssignmentSection.SaveLoadRoundTrip | src/components/admin/sections/StaffAssignmentSection.tsx:21-30 | loading the saved rows in any order gives back both selections, for non-empty ids |
| StaffAssignmentSection.StaffAssignmentForm.constructor | src/components/admin/sections/StaffAssignmentSection.tsx:16-17 | both selections start as the sentinel |
| StaffAssignmentSection.StaffAssignmentForm.Load | src/components/admin/sections/StaffAssignmentSection.tsx:19-25 | nothing changes before the assignments are loaded; then each selection is Resolve of its label |
| StaffAssignmentSection.StaffAssignmentForm.Save | src/components/admin/sections/StaffAssignmentSection.tsx:27-30 | the pushed list is SaveList of the two selections, and the state is untouched |
| StaffAssignmentSection.StaffAssignmentForm.SelectSales | src/components/admin/sections/StaffAssignmentSection.tsx:47 | sets only the sales selection |
| StaffAssignmentSection.StaffAssignmentForm.SelectAd | src/components/admin/sections/StaffAssignmentSection.tsx:59 | sets only the ad selection |
| AdminStaff.MaskValue | src/pages/AdminStaff.tsx:49 | "-" for a missing or empty value; otherwise six bullets followed by the last min(4, length) characters, so the length is 6 + min(4, length) |
| AdminStaff.MaskHidesPrefix | src/pages/AdminStaff.tsx:49 | values ending in the same four characters mask identically, to ten characters: nothing before the tail is revealed |
| AdminStaff.MaskDashIffMissing | src/pages/AdminStaff.tsx:49 | the mask is "-" exactly for a missing or empty value, and never longer than ten |
| AdminStaff.ChatIdDisplay | src/pages/AdminStaff.tsx:92 | in master mode the raw chat id (or "-" when missing or empty); otherwise its mask |
| AdminStaff.ChatIdHiddenOutsideMaster | src/pages/AdminStaff.tsx:92 | outside master mode a chat id longer than four is shown as itself only if it already has the masked shape; in master mode it is shown as is |
| AdminStaff.CanSaveNamed | src/pages/AdminStaff.tsx:12-73 | the fresh draft and a missing draft cannot be saved; setting the name unlocks saving iff the name is non-empty |
| AdminStaff.StaffPage.constructor | src/pages/AdminStaff.tsx:18-21 | no draft, master mode off, prompt hidden, empty password |
| AdminStaff.StaffPage.OpenPrompt | src/pages/AdminStaff.tsx:68 | shows the prompt and changes nothing else |
| AdminStaff.StaffPage.TypePassword | src/pages/AdminStaff.tsx:63 | sets only the password field |
| AdminStaff.StaffPage.CancelPrompt | src/pages/AdminStaff.tsx:65 | hides the prompt and clears the password |
| AdminStaff.StaffPage.MasterLogin | src/pages/AdminStaff.tsx:23-31 | the right password turns master mode on, hides the prompt and clears the field; a wrong one leaves all state as it was and raises the failure toast |
| AdminStaff.StaffPage.LeaveMaster | src/pages/AdminStaff.tsx:71 | turns master mode off and nothing else |
| AdminStaff.StaffPage.NewDraft | src/pages/AdminStaff.tsx:12-73 | opens the dialog on `EMPTY_STAFF` (role "영업") |
| AdminStaff.StaffPage.EditExisting | src/pages/AdminStaff.tsx:96 | opens the dialog on a copy of the member |
| AdminStaff.StaffPage.CloseDialog | src/pages/AdminStaff.tsx:105 | drops the draft |
| AdminStaff.StaffPage.EditName | src/pages/AdminStaff.tsx:110 | sets the draft's name when a draft is open, and nothing otherwise |
| AdminStaff.StaffPage.EditTelegram | src/pages/AdminStaff.tsx:126-131 | changes the draft's credentials only in master mode with an open draft |
| AdminStaff.StaffPage.BeginSave | src/pages/AdminStaff.tsx:34-36 | hands the draft to the save call iff it exists and has a non-empty name; otherwise only the warning toast |
| AdminStaff.StaffPage.CompleteSave | src/pages/AdminStaff.tsx:37-38 | success closes the dialog with the saved toast; an error keeps the draft and shows its message |
| AccessLogs.Count | src/pages/AdminAccessLogs.tsx:57-58 | an actor's view count is at most the number of logs, and zero exactly when the actor has no log |
| AccessLogs.DurationsAreTruthy | src/pages/AdminAccessLogs.tsx:59 | only truthy durations are collected: each is non-zero and the duration of one of the actor's logs, at most one per log |
| AccessLogs.AvgDurationRounds | src/pages/AdminAccessLogs.tsx:67 | 0 with no durations; otherwise the integer within half of the mean, halves rounding up as `Math.round` does |
| AccessLogs.ActorMapLookup | src/pages/AdminAccessLogs.tsx:51 | the name map holds, under each actor id, the name of the last row with that id |
| AccessLogs.ActorMapDomain | src/pages/AdminAccessLogs.tsx:51 | the name map has a key exactly for the ids of the actor rows |
| AccessLogs.ActorName | src/pages/AdminAccessLogs.tsx:65 | the mapped name when it is truthy, otherwise the first min(8, length) characters of the id |
| AccessLogs.InsertByViews | src/pages/AdminAccessLogs.tsx:69 | one stable insertion step of the sort by descending views: one longer, the same rows plus the new one |
| AccessLogs.SortByViews | src/pages/AdminAccessLogs.tsx:69 | the sort by descending views is a permutation of the rows |
| AccessLogs.InsertKeepsOrder | src/pages/AdminAccessLogs.tsx:69 | inserting a row of later first appearance keeps the order "more views, or equal views and earlier first log" |
| AccessLogs.SortOrdered | src/pages/AdminAccessLogs.tsx:69 | the sort of rows in first-appearance order yields views non-increasing with ties in first-appearance order (stability) |
| AccessLogs.SumSort | src/pages/AdminAccessLogs.tsx:69 | sorting keeps the total of the view counts |
| AccessLogs.TallyTotal | src/pages/AdminAccessLogs.tsx:56-61 | the view counts over the distinct actor ids add up to the number of logs |
| AccessLogs.RowsByFirstLog | src/pages/AdminAccessLogs.tsx:55-62 | before sorting, the rows come in the order of each actor's first log (the `Map`'s insertion order) |
| AccessLogs.SummaryOrder | src/pages/AdminAccessLogs.tsx:53-70 | the summary is non-increasing in views, and ties keep the order of first appearance |
| AccessLogs.SummaryRowsAggregate | src/pages/AdminAccessLogs.tsx:55-68 | each summary row belongs to an actor with logs and holds that actor's count, name and rounded mean over all logs |
| AccessLogs.SummaryOneRowPerActor | src/pages/AdminAccessLogs.tsx:55-62 | one row for every actor with a log, and no actor twice |
| AccessLogs.SummaryViewsTotal | src/pages/AdminAccessLogs.tsx:55-69 | the summary's view counts add up to the number of logs |
| AccessLogs.TalliesExact | src/pages/AdminAccessLogs.tsx:55-61 | the tally map has an entry for exactly the actors with a log, holding their count and their truthy durations |
| AccessLogs.TallyLogs | src/pages/AdminAccessLogs.tsx:55-61 | the loop fills the map with Tallies of the logs, and its key order is first appearance |
| AccessLogs.Summarize | src/pages/AdminAccessLogs.tsx:53-70 | empty while the logs are undefined; otherwise equal to Summary, whose order, rows and total are the lemmas above |
| AccessLogs.FormatDuration | src/pages/AdminAccessLogs.tsx:73 | minutes and seconds from 60 on, otherwise seconds alone |
| AccessLogs.FormatDurationReadsBack | src/pages/AdminAccessLogs.tsx:73 | from 60 on, the text is digits, "분 ", digits, "초", and the two numbers recombine to the input with seconds below 60 |
| AccessLogs.ParseUA | src/pages/AdminAccessLogs.tsx:74-78 | unknown for a missing or empty agent; mobile iff the agent contains "Mobile"; desktop otherwise |
| YouTube.PrefixMatching | src/hooks/useActorData.ts:107 | the first of the four prefixes that occurs at the position followed by an id character, or none when no prefix is |
| YouTube.MatchedPrefix | src/hooks/useActorData.ts:107 | at a matching position, one of the four prefixes occurs there followed by an id character |
| YouTube.RunLength | src/hooks/useActorData.ts:107 | the greedy `[^&\n?#]+` run: no delimiter inside it, and it ends at the end of the url or at a delimiter |
| YouTube.FirstMatch | src/hooks/useActorData.ts:107 | the leftmost matching start position, or none when the expression matches nowhere |
| YouTube.Capture | src/hooks/useActorData.ts:107-108 | the capture is non-empty, delimiter-free, immediately follows the prefix and is maximal |
| YouTube.GetYouTubeIdSpec | src/hooks/useActorData.ts:106-109 | null exactly when no position matches; otherwise the maximal non-empty delimiter-free text after one of the four prefixes at the leftmost matching position |
| YouTube.MatchNeedsY | src/hooks/useActorData.ts:107 | a match can start only at a `y` |
| YouTube.FirstMatchIs | src/hooks/useActorData.ts:107 | the scan stops at the first matching position |
| YouTube.ShortLinkExample | src/hooks/useActorData.ts:107 | "https://youtu.be/abc?t=3" gives "abc" |
| YouTube.WatchLinkExample | src/hooks/useActorData.ts:107 | "https://www.youtube.com/watch?v=XYZ&list=L" gives "XYZ" |
| VideoSection.CategoryLabel | src/components/actor/VideoSection.tsx:5-12 | a label exists exactly for the six standard categories, and it is non-empty and differs from the key |
| VideoSection.Heading | src/components/actor/VideoSection.tsx:48 | the heading is the raw key exactly when the key is not standard; otherwise the standard label |
| VideoSection.LinkLabel | src/components/actor/VideoSection.tsx:70 | never empty; the link's own label whenever it has one, else "영상 보기" |
| VideoSection.ItemsOf | src/components/actor/VideoSection.tsx:22 | the filter is no longer than the videos |
| VideoSection.ItemsOfMember | src/components/actor/VideoSection.tsx:22 | a video is in the filter of a category iff it is one of the videos and has that category |
| VideoSection.ItemsOfAppend | src/components/actor/VideoSection.tsx:22 | the filter keeps input order: it distributes over concatenation |
| VideoSection.ItemsOfNonEmpty | src/components/actor/VideoSection.tsx:22-23 | a category's filter is non-empty iff some video has that category |
| VideoSection.KnownGroupsItems | src/components/actor/VideoSection.tsx:21-25 | every group of the `reduce` is a standard category with its whole filter, never empty |
| VideoSection.KnownGroupsComplete | src/components/actor/VideoSection.tsx:21-25 | every standard category with a video gets a group |
| VideoSection.KnownGroupsOrdered | src/components/actor/VideoSection.tsx:14-25 | the `reduce`'s groups follow `CATEGORY_ORDER` |
| VideoSection.UnknownCategoriesMember | src/components/actor/VideoSection.tsx:28-29 | a category is met by the `forEach` iff it is not standard and some video has it |
| VideoSection.UnknownGroups | src/components/actor/VideoSection.tsx:28-33 | the keys the `forEach` adds are the non-standard categories in order of first appearance |
| VideoSection.UnknownGroupsSkip | src/components/actor/VideoSection.tsx:29 | the `forEach` step on a video of a standard category changes nothing |
| VideoSection.UnknownGroupsNew | src/components/actor/VideoSection.tsx:30-31 | the step on the first video of an unknown category appends a group holding just that video |
| VideoSection.UnknownGroupsPush | src/components/actor/VideoSection.tsx:31 | the step on a later video of an unknown category pushes it onto that category's group and changes no other group |
| VideoSection.FindKey | src/components/actor/VideoSection.tsx:30 | the lookup `grouped[v.category]` finds a group with the key, or reports that no group has it |
| VideoSection.AddVideo | src/components/actor/VideoSection.tsx:28-33 | one `forEach` callback turns the groups for a prefix of the videos into the groups for one video more |
| VideoSection.AddVideoFresh | src/components/actor/VideoSection.tsx:30-31 | creating the empty group and pushing gives the groups with the new category appended |
| VideoSection.AddVideoExisting | src/components/actor/VideoSection.tsx:31 | pushing onto the found group gives the groups for one video more |
| VideoSection.GroupVideos | src/components/actor/VideoSection.tsx:19-35 | nothing to render iff there are no videos; otherwise the `reduce` followed by the `forEach` yields Grouping, whose properties are the lemmas here |
| VideoSection.GroupingItems | src/components/actor/VideoSection.tsx:21-33 | each group holds exactly the videos of its category, in input order, and is never empty |
| VideoSection.GroupingAt | src/components/actor/VideoSection.tsx:21-35 | the first groups are the standard ones; the rest are non-standard categories that some video has, in first-appearance order |
| VideoSection.GroupingKnownOrder | src/components/actor/VideoSection.tsx:14-35 | standard keys come before all other keys and follow `CATEGORY_ORDER` |
| VideoSection.UnknownKeysOrder | src/components/actor/VideoSection.tsx:28-35 | the unknown keys are ordered by the position of each category's first video |
| VideoSection.GroupingUnknownOrder | src/components/actor/VideoSection.tsx:28-35 | in the grouping, the non-standard keys are ordered by first appearance |
| VideoSection.GroupingKeysDistinct | src/components/actor/VideoSection.tsx:35 | no key is used twice |
| VideoSection.VideoInOwnGroup | src/components/actor/VideoSection.tsx:21-33 | every video's category has a group, and a video is in a group iff the group's key is its category |
| VideoSection.UnknownOrderIsFirstAppearance | src/components/actor/VideoSection.tsx:28-33 | among unknown categories, the order of the `forEach` is the order of their first video |
| VideoSection.VideoPlayer.constructor | src/components/actor/VideoSection.tsx:17 | no video is playing at first |
| VideoSection.VideoPlayer.ClickLink | src/components/actor/VideoSection.tsx:62-67 | a link with a readable YouTube id starts that id; one without leaves the player as it was |
| VideoSection.VideoPlayer.Close | src/components/actor/VideoSection.tsx:87-91 | the backdrop and the close button clear the player |
| DraggableList.InsertAt | src/components/admin/DraggableList.tsx:15 | the spliced-in item sits at its position, the items before it keep theirs and the items after it move up one |
| DraggableList.MovePermutes | src/components/admin/DraggableList.tsx:13-16 | the reordered list has the same length, is a permutation of the items, and has the dragged item at the destination |
| DraggableList.MoveShifts | src/components/admin/DraggableList.tsx:14-15 | only the items between source and destination move, each by one place toward the source; all others keep their index |
| DraggableList.MoveInPlace | src/components/admin/DraggableList.tsx:14-15 | dropping an item where it was picked up gives the identical list |
| DraggableList.MoveBack | src/components/admin/DraggableList.tsx:14-15 | dragging back from the destination to the source restores the list |
| DraggableList.CloseGapDown | src/components/admin/DraggableList.tsx:14-15 | the in-place splice for a downward move: the items after the source up to the destination each move up one place, the rest stay |
| DraggableList.CloseGapUp | src/components/admin/DraggableList.tsx:14-15 | the in-place splice for an upward move: the items from the destination up to before the source each move down one place, the rest stay |
| DraggableList.HandleDragEnd | src/components/admin/DraggableList.tsx:11-17 | no destination means no reorder; otherwise the two splices on a copy give Move of the items, whose properties are the lemmas above, and `items` is only read |
| Carousel.JsRem | src/components/actor/ImageCarousel.tsx:18 | JavaScript's `%` for a positive divisor: the sign of the dividend, magnitude below the divisor, equal to the modulus on non-negative dividends |
| Carousel.Step | src/components/actor/ImageCarousel.tsx:17-19 | `go(dir)` lands in [0, n) whenever `current + dir + n` is not negative; within range it moves by `dir`, past either end it wraps by n |
| Carousel.StepBackAndForth | src/components/actor/ImageCarousel.tsx:18 | from a valid index, a step forward then back (or back then forward) is the identity |
| Carousel.StepForwardCycle | src/components/actor/ImageCarousel.tsx:18 | k ≤ n forward steps move k places with one wrap, so n steps return to the start |
| ImageCarousel.AllImages | src/components/actor/ImageCarousel.tsx:13-15 | the image URLs when there are images; otherwise the fallback URL alone when it is truthy; otherwise nothing |
| ImageCarousel.AllImagesEmpty | src/components/actor/ImageCarousel.tsx:13-34 | the carousel is empty iff there are no images and no truthy fallback |
| ImageCarousel.Placeholder | src/components/actor/ImageCarousel.tsx:34-40 | the empty carousel shows `fallbackInitial` when it is truthy, otherwise "?" |
| ImageCarousel.Badge | src/components/actor/ImageCarousel.tsx:61-64 | the "current+1/n" badge is shown iff n > 1 |
| ImageCarousel.BadgeInRange | src/components/actor/ImageCarousel.tsx:61-64 | on a valid index the badge reads a position from 1 to n |
| ImageCarousel.ArrowRightIsStep | src/components/actor/ImageCarousel.tsx:18-27 | the right-arrow key's `(prev + 1) % n` equals `go(1)` on every valid index |
| ImageCarousel.CarouselView.constructor | src/components/actor/ImageCarousel.tsx:10-15 | starts on image 0 with the viewer closed |
| ImageCarousel.CarouselView.OpenViewer | src/components/actor/ImageCarousel.tsx:34-46 | clicking the picture opens the viewer; an empty carousel has no picture to click |
| ImageCarousel.CarouselView.CloseViewer | src/components/actor/ImageCarousel.tsx:71-76 | the backdrop and the close button close the viewer and keep the index |
| ImageCarousel.CarouselView.Go | src/components/actor/ImageCarousel.tsx:91-108 | the buttons, present only in the open viewer with more than one image, step with wrap-around and keep the index valid (also lines 17-19) |
| ImageCarousel.CarouselView.SelectDot | src/components/actor/ImageCarousel.tsx:111-115 | dot i sets the index to i |
| ImageCarousel.CarouselView.KeyDown | src/components/actor/ImageCarousel.tsx:21-32 | the listener acts only while the viewer is open with more than one image: Escape closes it, the arrows step back and forth with wrap-around; the index stays valid |
| CareerVideoModal.Heading | src/components/actor/CareerVideoModal.tsx:27 | never empty; the link's label when it has one, else "플레이어" |
| CareerVideoModal.PlayerUrl | src/components/actor/CareerVideoModal.tsx:19-40 | no player (the invalid-link message) iff no YouTube id can be read; otherwise the embed address of that id |
| CareerVideoModal.PlayerUrlCarriesId | src/components/actor/CareerVideoModal.tsx:33 | the embed address is the fixed prefix, then exactly the id read from the link, then the autoplay suffix |
| CareerVideoModal.Modal.constructor | src/components/actor/CareerVideoModal.tsx:11 | the index starts at `initialIndex`, unclamped |
| CareerVideoModal.Modal.Renders | src/components/actor/CareerVideoModal.tsx:13 | the modal renders nothing for an entry without links; any valid index means it renders |
| CareerVideoModal.Modal.Go | src/components/actor/CareerVideoModal.tsx:15-48 | with more than one link, steps modulo the link count, staying in range from any non-negative index; otherwise there are no buttons and nothing changes |
| CareerVideoModal.Modal.View | src/components/actor/CareerVideoModal.tsx:19-53 | on a valid index: the heading and player of the current link, and the counter `current+1 / n` between 1 and n |
| StillcutModal.Modal.constructor | src/components/actor/StillcutModal.tsx:10 | starts on image 0 |
| StillcutModal.Modal.Renders | src/components/actor/StillcutModal.tsx:12 | the modal renders nothing for an entry without images; in a valid state it renders exactly when the index names an image |
| StillcutModal.Modal.Go | src/components/actor/StillcutModal.tsx:14-53 | with more than one image, steps with wrap-around and stays in range; otherwise no arrows and nothing changes |
| StillcutModal.Modal.SelectDot | src/components/actor/StillcutModal.tsx:57-63 | dot i sets the index to i |
| StillcutModal.Modal.View | src/components/actor/StillcutModal.tsx:28-36 | shows the current image and the counter `current+1 / n` between 1 and n |
| Entities.CareerFieldLaws | src/pages/AdminActorForm.tsx:474-537 | setting one career field stores the value, leaves the other fields and the links and stills alone, and re-setting the current value changes nothing (also lines 362-366) |
| Entities.VideoFieldLaws | src/pages/AdminActorForm.tsx:752-771 | the same laws for a video's fields, which leave its links alone (also lines 362-366) |
| Entities.AwardFieldLaws | src/pages/AdminActorForm.tsx:967-990 | the same laws for an award's text fields, which leave its flag and style alone (also lines 362-366) |
| Entities.EditorialFieldLaws | src/pages/AdminActorForm.tsx:858-864 | the same laws for an editorial's fields, which leave its media alone (also lines 362-366) |
| Entities.EditCareerLink | src/pages/AdminActorForm.tsx:552-566 | same length; only career i changes, only in its links, and of those only link li, in the edited field |
| Entities.RemoveCareerLink | src/pages/AdminActorForm.tsx:572-575 | only career i changes, losing link li |
| Entities.AddCareerLink | src/pages/AdminActorForm.tsx:585-588 | only career i changes, gaining a blank link at the end |
| Entities.AddThenRemoveCareerLink | src/pages/AdminActorForm.tsx:572-588 | adding a link and removing the added one restores the careers |
| Entities.EditCareerLinkUndo | src/pages/AdminActorForm.tsx:552-566 | writing a link field's old value back restores the careers |
| Entities.EditCareerImage | src/pages/AdminActorForm.tsx:606-609 | only still ii of career i changes, taking the new URL |
| Entities.RemoveCareerImage | src/pages/AdminActorForm.tsx:616-619 | only career i changes, losing still ii |
| Entities.AddCareerImage | src/pages/AdminActorForm.tsx:630-633 | only career i changes, gaining a blank still |
| Entities.AddThenRemoveCareerImage | src/pages/AdminActorForm.tsx:616-633 | adding a still and removing it restores the careers |
| Entities.EditVideoLink | src/pages/AdminActorForm.tsx:790-804 | only link li of video i changes, in the edited field |
| Entities.RemoveVideoLink | src/pages/AdminActorForm.tsx:810-813 | only video i changes, losing link li |
| Entities.AddVideoLink | src/pages/AdminActorForm.tsx:823-826 | only video i changes, gaining a blank link |
| Entities.AddThenRemoveVideoLink | src/pages/AdminActorForm.tsx:810-826 | adding a link and removing it restores the videos |
| Entities.EditMedia | src/pages/AdminActorForm.tsx:882-899 | only medium mi of editorial i changes |
| Entities.RemoveMedia | src/pages/AdminActorForm.tsx:912-915 | only editorial i changes, losing medium mi |
| Entities.AddMedia | src/pages/AdminActorForm.tsx:925-928 | only editorial i changes, gaining a blank image medium |
| Entities.AddThenRemoveMedia | src/pages/AdminActorForm.tsx:912-928 | adding a medium and removing it restores the editorials |
| Lists.RemoveAt | src/pages/AdminActorForm.tsx:450-510 | removing an in-range position drops exactly that element (one shorter, same multiset less that element) and keeps the others in order; a position past the end removes nothing |
| Lists.RemoveAtInverse | src/pages/AdminActorForm.tsx:450-510 | putting the removed element back at its position restores the list |
| Lists.RemoveAppended | src/pages/AdminActorForm.tsx:450-458 | removing the just-appended last position gives the list back |
| Lists.UpdateAtLaws | src/pages/AdminActorForm.tsx:362-366 | `updateItem` keeps the length, stores the update at i, leaves every other index unchanged, and writing the old value back undoes it |
| Lists.Filter | src/components/actor/CareerPortfolio.tsx:25-27 | a filter is never longer than its list |
| Lists.FilterAppend | src/components/actor/CareerPortfolio.tsx:25-27 | filtering distributes over concatenation, so it keeps the relative order |
| Lists.FilterAllOrNone | src/components/actor/CareerPortfolio.tsx:67-74 | a filter keeping everything is the identity; one keeping nothing is empty |
| Lists.FilterMember | src/components/actor/VideoSection.tsx:22 | an element is kept iff it is in the list and satisfies the predicate |
| Lists.FilterSatisfies | src/components/actor/CareerPortfolio.tsx:25-27 | everything a filter keeps satisfies the predicate |
| Lists.FilterCongruent | src/components/actor/EditorialSection.tsx:40-49 | predicates that agree on the list's elements filter it alike |
| Lists.FilterStrongerCount | src/components/actor/EditorialSection.tsx:169-171 | a stronger predicate keeps at most as many elements, and exactly as many iff no element satisfies the weaker one alone (also lines 40-49) |
| Lists.FilterSplit | src/components/actor/CareerPortfolio.tsx:67-74 | a filter and its complement together hold exactly the list's elements |
| Lists.FilterAround | src/components/actor/CareerPortfolio.tsx:18-20 | the filter of a list split around a position, with and without that position (also lines 211-217) |
| Lists.FilterRemoveAt | src/components/actor/CareerPortfolio.tsx:18-20 | removing a position takes its element out of the filter exactly when the predicate keeps it |
| Lists.FilterPermutes | src/components/actor/CareerPortfolio.tsx:67-74 | permuting a list permutes what any filter keeps of it |
| Lists.Dedup | src/pages/AdminAccessLogs.tsx:55-62 | the distinct elements of the list, each once, no more than the list |
| Lists.DedupSnoc | src/pages/AdminAccessLogs.tsx:55-62 | one more element is appended to the distinct keys exactly when it is new |
| Lists.FirstIndex | src/pages/AdminAccessLogs.tsx:55-62 | the first position holding the element |
| Lists.DedupOrder | src/pages/AdminAccessLogs.tsx:55-62 | the distinct keys come in increasing order of first occurrence (insertion order of a `Map`) |
| Text.LeadingSpaces | src/components/actor/ContactSection.tsx:21 | the whitespace prefix, ending at a non-whitespace character or the end |
| Text.TrailingSpaces | src/components/actor/ContactSection.tsx:21 | the whitespace suffix, starting after a non-whitespace character or at the start |
| Text.Trim | src/components/actor/ContactSection.tsx:21-33 | `trim()` is the infix between a whitespace prefix and suffix, and is empty or starts and ends with non-whitespace |
| Text.TrimBlank | src/components/actor/ContactSection.tsx:21 | the trimmed string is empty iff the string is all whitespace |
| Text.TrimIdempotent | src/components/actor/ContactSection.tsx:31-33 | trimming twice is trimming once |
| Text.OrEmpty | src/pages/AdminActorForm.tsx:92-108 | `x \|\| ""` is non-empty iff x is truthy, and then x itself |
| Text.OrNull | src/pages/AdminActorForm.tsx:206-210 | `s \|\| null` is null iff s is empty, and otherwise s |
| Text.OrNullOrEmpty | src/pages/AdminActorForm.tsx:206-210 | loading with `\|\| ""` and saving with `\|\| null` keeps a truthy value and turns an empty one into null (also lines 92-108) |
| Text.Take | src/pages/AdminAccessLogs.tsx:65 | `slice(0, k)` is the first min(k, length) characters |
| Text.TakeLast | src/pages/AdminStaff.tsx:49 | `slice(-k)` is the last min(k, length) characters |
| Text.ContainsAt | src/pages/AdminAccessLogs.tsx:76 | `includes` holds iff the substring occurs at some position |
| Text.NatToDecimal | src/pages/AdminAccessLogs.tsx:73 | the printed digits of a natural number, without a leading zero |
| Text.DecimalRoundTrip | src/pages/AdminAccessLogs.tsx:73 | reading back the printed digits gives the number |
| Text.IntToDecimal | src/pages/AdminAccessLogs.tsx:73 | the printed integer: a minus sign iff it is negative, then the digits of its magnitude |
| TaggedLists.WithIndex | src/components/actor/CareerPortfolio.tsx:25-26 | every item is tagged with its own position and nothing is added or dropped |
| TaggedLists.Strip | src/components/actor/CareerPortfolio.tsx:70 | dropping the tags keeps each item in its place |
| TaggedLists.WithIndexSnoc | src/components/actor/CareerPortfolio.tsx:25-26 | tagging a list with one more item adds that item under the next index |
| TaggedLists.StripAppend | src/components/actor/CareerPortfolio.tsx:68-71 | untagging distributes over concatenation |
| TaggedLists.FilteredSnoc | src/components/actor/CareerPortfolio.tsx:25-27 | a tab's list grows by the new last item, under its index, exactly when the tab takes it |
| TaggedLists.FilteredStrip | src/components/actor/CareerPortfolio.tsx:25-70 | untagging a tab's list gives exactly the items of the tab, in list order |
| TaggedLists.FilteredIndices | src/components/actor/CareerPortfolio.tsx:25-77 | each entry of a tab is the item at its `originalIndex` and belongs to the tab, and the indices increase |
| TaggedLists.FilteredComplete | src/components/actor/CareerPortfolio.tsx:25-27 | every item belonging to the tab is listed under its own index |
| TaggedLists.ListedIff | src/components/actor/CareerPortfolio.tsx:25-27 | a position is listed in a tab iff its item belongs to the tab |
| TaggedLists.RegroupPermutes | src/components/actor/CareerPortfolio.tsx:67-74 | regrouping with a reordering of the tab permutes the whole list, and every filter of it |
| TaggedLists.RegroupKeepsGroups | src/components/actor/CareerPortfolio.tsx:67-74 | after regrouping, the tab shows the reordered items and the other items keep their order |
| TaggedLists.StripMove | src/components/actor/CareerPortfolio.tsx:70 | untagging commutes with the drag move (also src/components/admin/DraggableList.tsx:11-17) |
| TaggedLists.DragPermutes | src/components/actor/CareerPortfolio.tsx:63-74 | a drag in a tab permutes the whole list (also src/components/admin/DraggableList.tsx:11-17) |
| CareerPortfolio.TabListsCategory | src/components/actor/CareerPortfolio.tsx:25-27 | a tab lists exactly the careers of its category, under their own indices, in list order, as many as its title counts (also lines 211-217) |
| CareerPortfolio.ReorderPermutes | src/components/actor/CareerPortfolio.tsx:67-74 | a reorder of a tab permutes all careers, keeps every tab's count and the other careers' order, and shows the tab in its new order |
| CareerPortfolio.DragKeepsCounts | src/components/actor/CareerPortfolio.tsx:63-74 | a drag inside a tab permutes the careers and keeps every count (also src/components/admin/DraggableList.tsx:11-17) |
| CareerPortfolio.AddShowsInTab | src/components/actor/CareerPortfolio.tsx:226-265 | an add button appends a blank career to the end of its tab and leaves the other tab's count (also lines 37-51) |
| CareerPortfolio.RemoveCounts | src/components/actor/CareerPortfolio.tsx:18-20 | removing a career lowers only its own tab's count, by one (also lines 211-217) |
| CareerPortfolio.Editor.constructor | src/components/actor/CareerPortfolio.tsx:9 | the editor writes the parent's careers cell |
| CareerPortfolio.Editor.UpdateItem | src/components/actor/CareerPortfolio.tsx:11-15 | the career at the original index gets the edited field; the rest of the list is unchanged |
| CareerPortfolio.Editor.RemoveItem | src/components/actor/CareerPortfolio.tsx:18-20 | the careers become the list without that index |
| CareerPortfolio.Editor.EditLink | src/components/actor/CareerPortfolio.tsx:154-170 | the edited field is written into that link of that career alone |
| CareerPortfolio.Editor.RemoveLink | src/components/actor/CareerPortfolio.tsx:174-177 | that link is removed from that career alone |
| CareerPortfolio.Editor.AddLink | src/components/actor/CareerPortfolio.tsx:186-189 | a blank link is appended to that career alone |
| CareerPortfolio.Editor.AddItem | src/components/actor/CareerPortfolio.tsx:226-265 | a blank career of the tab's category is appended (also lines 37-51) |
| CareerPortfolio.Editor.OnReorder | src/components/actor/CareerPortfolio.tsx:63-75 | the careers become the other categories' careers followed by the tab's reordered, untagged careers |
| ActorEditorialSection.TabOf | src/components/actor/EditorialSection.tsx:9-49 | the tab an editorial is listed in: a magazine tab only for its own category, otherwise "other" |
| ActorEditorialSection.ExactlyOneTab | src/components/actor/EditorialSection.tsx:40-49 | every editorial is listed in exactly one tab |
| ActorEditorialSection.TabCountVersusList | src/components/actor/EditorialSection.tsx:169-171 | a magazine tab's title counts its list; the "other" title never counts more than its list, and the same number iff no editorial has an unrecognised category (also lines 40-49) |
| ActorEditorialSection.OtherCountFallsShort | src/components/actor/EditorialSection.tsx:170 | one editorial of an unknown magazine is listed under "other" but counted as 0 there (also line 45) |
| ActorEditorialSection.ReorderRegroups | src/components/actor/EditorialSection.tsx:65-68 | dropping the positions listed in the tab is dropping the tab's editorials, so the rest keep their order |
| ActorEditorialSection.DragPermutes | src/components/actor/EditorialSection.tsx:60-69 | a drag in a tab permutes the whole list and every tab's list (also src/components/admin/DraggableList.tsx:11-17) |
| ActorEditorialSection.NewEntryInItsTab | src/components/actor/EditorialSection.tsx:185-189 | the added editorial is listed at the end of its own tab, under the next index, and in no other tab |
| ActorEditorialSection.EntrySet | src/components/actor/EditorialSection.tsx:19-97 | each input writes its own field; the select sets the category to the chosen id |
| ActorEditorialSection.CategorySelectMoves | src/components/actor/EditorialSection.tsx:76-86 | choosing a tab's id in the select moves the editorial to that tab |
| ActorEditorialSection.AddMediaAt | src/components/actor/EditorialSection.tsx:25-30 | a blank image entry is appended to that editorial's media, missing media counting as none; nothing else changes |
| ActorEditorialSection.UpdateMediaAt | src/components/actor/EditorialSection.tsx:32-36 | only media entry mi of editorial i changes, to the update |
| ActorEditorialSection.RemoveMediaAt | src/components/actor/EditorialSection.tsx:133-136 | that media entry is removed from that editorial alone |
| ActorEditorialSection.AddThenRemoveMedia | src/components/actor/EditorialSection.tsx:133-136 | adding and removing the added entry restores the list (also lines 25-30) |
| ActorEditorialSection.UpdateMediaUndo | src/components/actor/EditorialSection.tsx:32-36 | writing back the old entry undoes an edit |
| ActorEditorialSection.Editor.constructor | src/components/actor/EditorialSection.tsx:18 | the editor writes the parent's editorials cell |
| ActorEditorialSection.Editor.UpdateEditorial | src/components/actor/EditorialSection.tsx:19-23 | only editorial i changes, in the edited field |
| ActorEditorialSection.Editor.Remove | src/components/actor/EditorialSection.tsx:103 | the editorials become the list without index i |
| ActorEditorialSection.Editor.AddMedia | src/components/actor/EditorialSection.tsx:144 | the editorials become `AddMediaAt` of the old list (also lines 25-30) |
| ActorEditorialSection.Editor.UpdateMediaType | src/components/actor/EditorialSection.tsx:116-123 | the entry's media type is set, nothing else changes |
| ActorEditorialSection.Editor.UpdateMediaUrl | src/components/actor/EditorialSection.tsx:124-129 | the entry's URL is set, nothing else changes |
| ActorEditorialSection.Editor.RemoveMedia | src/components/actor/EditorialSection.tsx:133-136 | the editorials become `RemoveMediaAt` of the old list |
| ActorEditorialSection.Editor.AddEntry | src/components/actor/EditorialSection.tsx:185-189 | a blank editorial of the tab's magazine is appended |
| ActorEditorialSection.Editor.OnReorder | src/components/actor/EditorialSection.tsx:63-69 | the editorials become those not listed in the tab followed by the reordered ones untagged |
| CareerSection.Editor.constructor | src/components/sections/CareerSection.tsx:8 | the editor writes the parent's careers cell |
| CareerSection.Editor.UpdateItem | src/components/sections/CareerSection.tsx:9-46 | only career i changes, in the edited field |
| CareerSection.Editor.Remove | src/components/sections/CareerSection.tsx:35 | the careers become the list without index i |
| CareerSection.Editor.EditLink | src/components/sections/CareerSection.tsx:55-60 | only link li of career i changes, in the edited field |
| CareerSection.Editor.RemoveLink | src/components/sections/CareerSection.tsx:61-63 | link li is removed from career i alone |
| CareerSection.Editor.AddLink | src/components/sections/CareerSection.tsx:66-68 | a blank link is appended to career i alone |
| CareerSection.Editor.Append | src/components/sections/CareerSection.tsx:73 | a blank drama/film career is appended |
| AwardSection.Editor.constructor | src/components/admin/sections/AwardSection.tsx:8 | the editor writes the parent's awards cell |
| AwardSection.Editor.UpdateItem | src/components/admin/sections/AwardSection.tsx:9-35 | only award i changes, in the edited field |
| AwardSection.Editor.SetShowOnProfile | src/components/admin/sections/AwardSection.tsx:24 | only award i's profile flag changes, to the checkbox state |
| AwardSection.Editor.Remove | src/components/admin/sections/AwardSection.tsx:31 | the awards become the list without index i |
| AwardSection.Editor.Append | src/components/admin/sections/AwardSection.tsx:39 | a blank award shown on the profile is appended |
| KeywordSection.Editor.constructor | src/components/admin/sections/KeywordSection.tsx:7 | the editor writes the parent's keywords cell |
| KeywordSection.Editor.EditKeyword | src/components/admin/sections/KeywordSection.tsx:15-17 | only keyword i's text changes |
| KeywordSection.Editor.EditSize | src/components/admin/sections/KeywordSection.tsx:22-24 | only keyword i's size class changes |
| KeywordSection.Editor.Remove | src/components/admin/sections/KeywordSection.tsx:32 | the keywords become the list without index i |
| KeywordSection.Editor.Append | src/components/admin/sections/KeywordSection.tsx:35 | a blank `tag-m` keyword is appended |
| TagSection.Editor.constructor | src/components/sections/TagSection.tsx:7 | the editor writes the parent's tags cell |
| TagSection.Editor.EditText | src/components/sections/TagSection.tsx:15-17 | only tag i's text changes |
| TagSection.Editor.EditStyle | src/components/sections/TagSection.tsx:22-24 | only tag i's style changes |
| TagSection.Editor.Remove | src/components/sections/TagSection.tsx:31 | the tags become the list without index i |
| TagSection.Editor.Append | src/components/sections/TagSection.tsx:34 | a blank `normal` tag is appended |
| ProfileImageSection.Editor.constructor | src/components/admin/sections/ProfileImageSection.tsx:7 | the editor writes the parent's images cell |
| ProfileImageSection.Editor.EditUrl | src/components/admin/sections/ProfileImageSection.tsx:15-17 | only image i's URL changes |
| ProfileImageSection.Editor.Remove | src/components/admin/sections/ProfileImageSection.tsx:21 | the images become the list without index i |
| ProfileImageSection.Editor.Append | src/components/admin/sections/ProfileImageSection.tsx:24 | a blank image is appended |
| VisualArchiveSection.ItemSet | src/components/sections/VisualArchiveSection.tsx:13-41 | the category select and the name and year inputs each write their own field |
| VisualArchiveSection.EditLink | src/components/sections/VisualArchiveSection.tsx:48-63 | only link li of item i changes, in the edited field; everything else is kept |
| VisualArchiveSection.AddLink | src/components/sections/VisualArchiveSection.tsx:66-68 | a blank link is appended to item i, whose missing links count as none; nothing else changes |
| VisualArchiveSection.AddThenEditNewLink | src/components/sections/VisualArchiveSection.tsx:52-68 | adding a link and typing its label gives the old links plus one link carrying only that label |
| VisualArchiveSection.Editor.constructor | src/components/sections/VisualArchiveSection.tsx:7 | the editor writes the parent's videos cell |
| VisualArchiveSection.Editor.EditItem | src/components/sections/VisualArchiveSection.tsx:13-41 | only item i changes, in the edited field |
| VisualArchiveSection.Editor.Remove | src/components/sections/VisualArchiveSection.tsx:43 | the items become the list without index i |
| VisualArchiveSection.Editor.EditLinkField | src/components/sections/VisualArchiveSection.tsx:48-63 | the items become `EditLink` of the old list |
| VisualArchiveSection.Editor.AddLinkTo | src/components/sections/VisualArchiveSection.tsx:66-68 | the items become `AddLink` of the old list |
| VisualArchiveSection.Editor.Append | src/components/sections/VisualArchiveSection.tsx:72 | a blank drama/film item with no links is appended |
| AdminEditorialSection.EditMediaAt | src/components/admin/sections/EditorialSection.tsx:24-41 | only media entry mi of editorial i changes, to the new entry |
| AdminEditorialSection.AddMediaAt | src/components/admin/sections/EditorialSection.tsx:44-46 | a blank image entry is appended to editorial i, whose missing media count as none |
| AdminEditorialSection.EditMediaUndo | src/components/admin/sections/EditorialSection.tsx:24-41 | writing back the old entry undoes an edit |
| AdminEditorialSection.Editor.constructor | src/components/admin/sections/EditorialSection.tsx:7 | the editor writes the parent's editorials cell |
| AdminEditorialSection.Editor.EditYear | src/components/admin/sections/EditorialSection.tsx:13-15 | only editorial i's year changes |
| AdminEditorialSection.Editor.EditMediaName | src/components/admin/sections/EditorialSection.tsx:16-18 | only editorial i's magazine name changes |
| AdminEditorialSection.Editor.Remove | src/components/admin/sections/EditorialSection.tsx:19 | the editorials become the list without index i |
| AdminEditorialSection.Editor.EditMediaType | src/components/admin/sections/EditorialSection.tsx:24-33 | only the entry's media type changes |
| AdminEditorialSection.Editor.EditMediaUrl | src/components/admin/sections/EditorialSection.tsx:34-41 | only the entry's URL changes |
| AdminEditorialSection.Editor.AddMedia | src/components/admin/sections/EditorialSection.tsx:44-46 | the editorials become `AddMediaAt` of the old list |
| AdminEditorialSection.Editor.Append | src/components/admin/sections/EditorialSection.tsx:50 | a blank editorial with no media is appended |
| ActorFormData.FormFieldLaws | src/pages/AdminActorForm.tsx:401-423 | an input stores its value in its own field, leaves the other sixteen alone, and writing a field's own value changes nothing |
| ActorFormData.LoadForm | src/pages/AdminActorForm.tsx:91-109 | each form field is the record's value when truthy and "" otherwise |
| ActorFormData.WrittenRow | src/pages/AdminActorForm.tsx:176-193 | saving writes every form field as that field's column |
| ActorFormData.LoadFormRoundTrip | src/pages/AdminActorForm.tsx:91-193 | reloading the row a form was saved as gives the same form back |
| ActorFormData.InsightFieldLaws | src/pages/AdminActorForm.tsx:689 | an insight input stores its value in its own field and leaves the others alone |
| ActorFormData.HasInsightCases | src/pages/AdminActorForm.tsx:247 | the empty insight block has nothing to save; typing a non-empty value into any field gives it something |
| ActorFormData.NumberText | src/pages/AdminActorForm.tsx:130-134 | `n?.toString() \|\| ""` is "" iff the number is missing, else its decimal text |
| ActorFormData.LoadInsight | src/pages/AdminActorForm.tsx:124-137 | each text field is its column's text, or "" when the column is missing or empty; each numeric field is its column's decimal text, or "" when the column is null |
| ActorFormData.LoadCareer | src/pages/AdminActorForm.tsx:112-121 | the career keeps category, year and title, defaults the optional texts to "", and takes the embedded links and stills or [] |
| ActorFormData.LoadVideo | src/pages/AdminActorForm.tsx:139-146 | the category defaults to "drama_film" and is never empty; the links are mapped in order with labels defaulting to "" |
| ActorFormData.LoadAward | src/pages/AdminActorForm.tsx:147-155 | `?? true` keeps a stored false: the flag is true iff it is missing or true |
| ActorFormData.LoadEditorial | src/pages/AdminActorForm.tsx:158-164 | the texts default to "", missing media to [] |
| ActorFormData.Load | src/pages/AdminActorForm.tsx:89-165 | the form is LoadForm of the actor row; the insight block is set iff the record has an insights row, and then it is LoadInsight of it; element k of the careers, videos, awards and editorials is LoadCareer, LoadVideo, LoadAward and LoadEditorial of record k, so every list keeps its length and order; keywords, tags and images are as stored |
| ActorSave.KeptImages | src/pages/AdminActorForm.tsx:222-223 | the filter of stills never lengthens the list |
| ActorSave.KeptImagesMember | src/pages/AdminActorForm.tsx:222-223 | a still is kept iff it is in the list and its URL is not blank after trimming |
| ActorSave.KeptImagesAppend | src/pages/AdminActorForm.tsx:222-223 | the filter keeps the stills' relative order |
| ActorSave.KeptImagesAll | src/pages/AdminActorForm.tsx:222-223 | when every still has a URL, none is dropped |
| ActorSave.KeptLinks | src/pages/AdminActorForm.tsx:231-232 | the filter of links never lengthens the list |
| ActorSave.KeptLinksMember | src/pages/AdminActorForm.tsx:231-232 | a link is kept iff it is in the list and its URL is not blank after trimming |
| ActorSave.KeptLinksAll | src/pages/AdminActorForm.tsx:231-232 | when every link has a URL, none is dropped |
| ActorSave.ImageRowsOf | src/pages/AdminActorForm.tsx:218-225 | one `career_images` row per kept still, in order, numbered from 0 after the filter |
| ActorSave.LinkRowsOf | src/pages/AdminActorForm.tsx:227-239 | one `career_links` row per kept link, in order, numbered from 0 after the filter |
| ActorSave.ChildRowsNonBlank | src/pages/AdminActorForm.tsx:222-238 | no child row written has a blank URL |
| ActorSave.CareerRowOf | src/pages/AdminActorForm.tsx:203-211 | the careers row carries the actor id, the career's category, year label and title, and the list index as `sort_order`, with empty optional texts written as null |
| ActorSave.StepsStop | src/pages/AdminActorForm.tsx:198-348 | once a round of a save loop has thrown, later rounds add no call |
| ActorSave.RunSteps | src/pages/AdminActorForm.tsx:198-241 | the awaited loop makes, round by round, exactly the calls of its specification, stopping at the first round that throws |
| ActorSave.InsightRowOf | src/pages/AdminActorForm.tsx:249-262 | the insights row writes each empty input as null and carries the text of the others |
| ActorSave.InsightColumns | src/pages/AdminActorForm.tsx:252-260 | every insight column is null iff its input is empty, and otherwise the input |
| ActorSave.InsightQueuedIff | src/pages/AdminActorForm.tsx:247-264 | the insights row is queued iff some insight input is non-empty |
| ActorSave.QueuedImagesNumbered | src/pages/AdminActorForm.tsx:323-326 | the profile image rows, queued last, are numbered by list index |
| ActorSave.ActorWrite | src/pages/AdminActorForm.tsx:176-193 | the actor write ends the save iff the database answers with an error |
| ActorSave.Persist | src/pages/AdminActorForm.tsx:168-351 | `handleSave` makes the calls of the save's specification, in order, and ends as it does |
| ActorSave.SaveRefused | src/pages/AdminActorForm.tsx:169-172 | the save is refused iff the Korean name or the slug is empty, and a refused save makes no call, while an accepted one makes at least one |
| ActorSave.FetchCareer | src/hooks/useActorData.ts:70 | a fetch that embeds the child tables reads every stored link and still |
| ActorSave.ReloadDropsCareerChildren | src/hooks/useActorData.ts:70 | as written, reopening a saved career with links shows it with none (also src/pages/AdminActorForm.tsx:119-120) |
| ActorSave.ReloadCareerRoundTrip | src/hooks/useActorData.ts:70 | with the child tables embedded, save then reload gives the career back with only its blank-URL links and stills dropped (also src/pages/AdminActorForm.tsx:112-121,198-241) |
| ActorSave.RowsOfAppend | src/pages/AdminActorForm.tsx:198-348 | the rows of one table in two call logs are those of each, in order |
| ActorSave.RowsOfSingleton | src/pages/AdminActorForm.tsx:198-348 | one call contributes its own row to its table, or nothing |
| ActorSave.CareerStepRows | src/pages/AdminActorForm.tsx:200-216 | each career round writes exactly one careers row, its own |
| ActorSave.VideoStepRows | src/pages/AdminActorForm.tsx:274-286 | each video round writes exactly one videos row, its own, even when its insert fails |
| ActorSave.EditorialStepRows | src/pages/AdminActorForm.tsx:332-336 | each editorial round writes exactly one editorials row, its own, even when its insert fails |
| ActorSave.StepsRowsNumbered | src/pages/AdminActorForm.tsx:198-348 | a loop writing one row per round writes, however it ends, the rows of the first items in order, the k-th numbered k, all of them when no round threw |
| ActorSave.CareerRowsNumbered | src/pages/AdminActorForm.tsx:198-216 | the careers rows follow the list with `sort_order` equal to the list index, one per career when the loop completes |
| ActorSave.VideoRowsNumbered | src/pages/AdminActorForm.tsx:272-286 | the videos rows follow the list with `sort_order` equal to the list index, one per video when the loop completes |
| ActorSave.EditorialRowsNumbered | src/pages/AdminActorForm.tsx:330-336 | the editorials rows follow the list with `sort_order` equal to the list index, one per editorial when the loop completes |
| ActorSave.RowsOfNone | src/pages/AdminActorForm.tsx:218-240 | calls of other tables add no row to a table |
| ReactState.State.constructor | src/pages/AdminActorForm.tsx:48 | a `useState` cell starts at its initial value |
| ReactState.State.Set | src/pages/AdminActorForm.tsx:48 | after a setter call the cell holds the value it was given |
| AdminActorForm.OutcomeToast | src/pages/AdminActorForm.tsx:353-356 | destructive exactly when the save did not succeed; a stopped save shows the error's message (also lines 169-172) |
| AdminActorForm.Page.constructor | src/pages/AdminActorForm.tsx:48-86 | an empty form and insight block, no items in any list, not saving |
| AdminActorForm.Page.Load | src/pages/AdminActorForm.tsx:89-165 | nothing changes before the record arrives; then every cell is set from the record's load, except that the insight block keeps its state when there is no insights row |
| AdminActorForm.Page.Apply | src/pages/AdminActorForm.tsx:91-165 | after the setters every cell holds the loaded value, and the insight cell is written only when an insights row came |
| AdminActorForm.Page.ApplyLists | src/pages/AdminActorForm.tsx:139-165 | the videos, awards, tags, images and editorials cells hold the loaded lists |
| AdminActorForm.Page.EditForm | src/pages/AdminActorForm.tsx:401-423 | sets one basic-information field and only the form cell; it accepts every form field, a superset of the 14 that have an input (`profile_image_url`, `avg_likes` and `avg_comments` have none) |
| AdminActorForm.Page.EditInsight | src/pages/AdminActorForm.tsx:689 | sets one insight field and only the insight cell |
| AdminActorForm.Page.EditImage | src/pages/AdminActorForm.tsx:441 | `updateItem`: the image list with position i replaced by the new URL (also lines 362-366) |
| AdminActorForm.Page.RemoveImage | src/pages/AdminActorForm.tsx:450 | the image list without position i, others in order |
| AdminActorForm.Page.AddImage | src/pages/AdminActorForm.tsx:458 | appends a blank image |
| AdminActorForm.Page.EditCareer | src/pages/AdminActorForm.tsx:474-537 | `updateItem`: only career i changes, and only the edited field (also lines 362-366) |
| AdminActorForm.Page.RemoveCareer | src/pages/AdminActorForm.tsx:510 | the careers without position i, others in order |
| AdminActorForm.Page.EditCareerLink | src/pages/AdminActorForm.tsx:552-566 | only link li of career i changes, and only the edited field |
| AdminActorForm.Page.RemoveCareerLink | src/pages/AdminActorForm.tsx:572-575 | only career i changes, losing link li |
| AdminActorForm.Page.AddCareerLink | src/pages/AdminActorForm.tsx:585-588 | only career i changes, gaining a blank link at the end |
| AdminActorForm.Page.EditCareerImage | src/pages/AdminActorForm.tsx:606-609 | only still ii of career i changes its URL |
| AdminActorForm.Page.RemoveCareerImage | src/pages/AdminActorForm.tsx:616-619 | only career i changes, losing still ii |
| AdminActorForm.Page.AddCareerImage | src/pages/AdminActorForm.tsx:630-633 | only career i changes, gaining a blank still at the end |
| AdminActorForm.Page.AddCareer | src/pages/AdminActorForm.tsx:647-661 | appends a blank career of category "drama_film" with no links and no stills |
| AdminActorForm.Page.EditKeyword | src/pages/AdminActorForm.tsx:708 | only keyword i changes its text (also lines 362-366) |
| AdminActorForm.Page.EditKeywordSize | src/pages/AdminActorForm.tsx:713 | only keyword i changes its size class (also lines 362-366) |
| AdminActorForm.Page.RemoveKeyword | src/pages/AdminActorForm.tsx:724 | the keywords without position i |
| AdminActorForm.Page.AddKeyword | src/pages/AdminActorForm.tsx:735 | appends a blank keyword of size "tag-m" |
| AdminActorForm.Page.EditVideo | src/pages/AdminActorForm.tsx:752-771 | only video i changes, and only the edited field (also lines 362-366) |
| AdminActorForm.Page.RemoveVideo | src/pages/AdminActorForm.tsx:777 | the videos without position i |
| AdminActorForm.Page.EditVideoLink | src/pages/AdminActorForm.tsx:790-804 | only link li of video i changes, and only the edited field |
| AdminActorForm.Page.RemoveVideoLink | src/pages/AdminActorForm.tsx:810-813 | only video i changes, losing link li |
| AdminActorForm.Page.AddVideoLink | src/pages/AdminActorForm.tsx:823-826 | only video i changes, gaining a blank link |
| AdminActorForm.Page.AddVideo | src/pages/AdminActorForm.tsx:838-839 | appends a blank "drama_film" video with no links |
| AdminActorForm.Page.EditEditorial | src/pages/AdminActorForm.tsx:858-864 | only editorial i changes, and only the edited field (also lines 362-366) |
| AdminActorForm.Page.RemoveEditorial | src/pages/AdminActorForm.tsx:870 | the editorials without position i |
| AdminActorForm.Page.EditMediaType | src/pages/AdminActorForm.tsx:882-886 | only medium mi of editorial i changes its type |
| AdminActorForm.Page.EditMediaUrl | src/pages/AdminActorForm.tsx:895-899 | only medium mi of editorial i changes its URL |
| AdminActorForm.Page.RemoveMedia | src/pages/AdminActorForm.tsx:912-915 | only editorial i changes, losing medium mi |
| AdminActorForm.Page.AddMedia | src/pages/AdminActorForm.tsx:925-928 | only editorial i changes, gaining a blank image medium |
| AdminActorForm.Page.AddEditorial | src/pages/AdminActorForm.tsx:940 | appends a blank editorial with no media |
| AdminActorForm.Page.SetShowOnProfile | src/pages/AdminActorForm.tsx:959 | only award i changes its profile flag (also lines 362-366) |
| AdminActorForm.Page.EditAward | src/pages/AdminActorForm.tsx:967-990 | only award i changes, and only the edited field (also lines 362-366) |
| AdminActorForm.Page.RemoveAward | src/pages/AdminActorForm.tsx:979 | the awards without position i |
| AdminActorForm.Page.AddAward | src/pages/AdminActorForm.tsx:1000-1005 | appends a blank "award" award shown on the profile |
| AdminActorForm.Page.EditTagText | src/pages/AdminActorForm.tsx:1022 | only tag i changes its text (also lines 362-366) |
| AdminActorForm.Page.EditTagStyle | src/pages/AdminActorForm.tsx:1027 | only tag i changes its style (also lines 362-366) |
| AdminActorForm.Page.RemoveTag | src/pages/AdminActorForm.tsx:1037 | the tags without position i |
| AdminActorForm.Page.AddTag | src/pages/AdminActorForm.tsx:1045 | appends a blank "normal" tag |
| AdminActorForm.Page.HandleSave | src/pages/AdminActorForm.tsx:168-360 | the calls and outcome of Save on the page's state; the toast of that outcome; navigation to "/admin" iff saved; a refused save leaves `saving` alone, any other ends with `saving` false |

## Left out

- Text.Take, Text.TakeLast, AdminStaff.MaskValue, AccessLogs.ActorName: JavaScript's `length`
  and `slice` count UTF-16 code units, while these members count Unicode scalar values. So
  lengths and cuts of text with characters outside the Basic Multilingual Plane are not
  modelled, including a `slice` that splits a surrogate pair.
- SendTelegram.Handle: the joined `staff.name` is assumed present. A staff row without a
  name would print "null: sent" or "undefined: sent", which the model does not render.
  The staff editor refuses to save a record without a name.
- Supabase and `fetch` are outside the model. Queries, inserts, deletes and Telegram calls are
  modelled as a log of calls, and their answers as inputs. Row ids come from those
  answers.
- Concurrency is left out. The eight deletes of `Promise.all` are one `DeleteChildren`
  call. The inserts pushed onto `promises` in `handleSave` are lazy query builders that
  run when `Promise.all` awaits them, so they are modelled as a trailing batch in push
  order. Their result is not inspected, as in the source.
- `qc.invalidateQueries` and `navigate` are not modelled beyond the navigation flag of
  `HandleSave`. React Query caching is left out.
- The `useAccessLog` hook is left out. It is browser lifecycle plumbing: beacons on
  unload, visibility change and unmount.
- The Deno environment (`Deno.env`, `serve`) is left out. The credentials come from the
  assignment rows, which are inputs.
- `parseInt` is left abstract: the insights row carries the text that `parseInt` would
  read. Strings are sequences of Unicode scalar values compared by value. There is no
  Unicode normalisation.
- Floating point is not modelled. Durations are integers, and `Math.round(sum / n)` is
  computed exactly as `(2·sum + n) / (2·n)`. The float rounding of very large sums is
  not modelled.
- Date and locale formatting (`toLocaleString`, the timeline view of the access logs)
  is not part of this model, because it depends on the runtime's locale.
- Rendering, layout, Tailwind classes and the drag gesture itself are left out. Only the
  state each handler computes is modelled.
- The nested edits `n[i].links[li].x = v` act on a shallow copy, so in the source they
  also mutate the objects held by the previous state. The model works on values: each
  edit produces a new list, and the aliasing with the old array is not represented.
- Handlers take rendered indices, so the editing methods require an index within the
  list. Remove-by-index needs no such bound, because `filter` with an absent index
  returns the list unchanged.
- `onReorder={setX}` in the single-list editors is the setter applied to the output of
  `DraggableList.HandleDragEnd`. It is not repeated in each editor module.
- Embedded child rows read back by the edit query are assumed to come in `sort_order`
  order. The queries sort only the parent tables.
- Error messages of the database are opaque strings. `media_type` is an enumeration of
  "image" and "video" rather than free text.
- VideoSection's grouping object is modelled as a list of keyed groups. The key order of
  a JavaScript object would differ for integer-like category keys, and `grouped` would
  inherit from `Object.prototype`. The model assumes ordinary category names.
- The carousels do not reset `current` when their image list changes. The model takes
  the list as fixed for the lifetime of the component.
- CareerVideoModal.Modal.View: `current` starts at an unclamped `initialIndex`, as in the
  source. The view requires a valid index, so an out-of-range first render is not
  modelled.
- AdminStaff's e-mail, phone and role inputs are left out, as are the delete and confirm
  flow and the staff list query. The model keeps only the name and the Telegram fields.
- AdminStaff.StaffPage.EditTelegram sets the token and the chat id together, which is
  weaker than the source's two separate inputs.
- The conditions under which a tab shows its empty-state message instead of a list are
  rendering and are left out. The lists themselves are modelled.

## Findings

| source | as written | input that shows it | evidently intended | confidence | as-written member | corrected member |
|---|---|---|---|---|---|---|
| src/hooks/useActorData.ts:70; src/pages/AdminActorForm.tsx:119-120 | the edit query reads `careers` with `select('*')` only, so `career_links` and `career_images` are never fetched. The form loads each career with no links and no stills, and the next save deletes the careers and inserts them again without any link or still | a saved career with one link whose URL is non-blank, opened for editing and saved again | embed `career_links(*)` and `career_images(*)` in the careers query, as the videos and editorials queries embed their children | not executed | ActorSave.ReloadDropsCareerChildren | ActorSave.ReloadCareerRoundTrip |
