# Consecration programme client: a Dafny model

The web client of a 33-day Marian consecration programme keeps, for every
day, three task flags: meditation, video and rosary. It shows them in two
places:

- a calendar page, whose list of day records lives in `App` and is updated by
  `handleTaskUpdate`;
- a dashboard with its own local `progress` list.

Around these lists sit a few small dialogs and menus:

- the start-day picker, with a two-step confirmation and an order preview that
  wraps from 33 to 1;
- the profile dialog, with a name-save guard and account deletion behind a
  typed phrase;
- the libre-mode and start-day menu entries of the main layout;
- a chatbot that picks a canned reply by keyword priority and appends messages
  to a list.

This project models that logic and proves what the components promise.

- The list operations (`map`, `filter`, `find`, `reduce` over the day records)
  are pure functions on `seq`. Their contracts state the source's guarantees:
  - the length and the day order are kept;
  - only the targeted flag changes;
  - the counts are bounded;
  - a toggle applied twice restores the list;
  - the progress percentage lies in 0..100.
- The dialogs are classes whose fields are the components' state variables.
  - Their handlers are methods with `modifies this`.
  - The callbacks a component makes to its parent (`onConfirm`, `onClose`,
    `onUpdateName`, the mutations sent) are recorded in a call log field.
  - The outcome of an asynchronous mutation is a `succeeded` parameter.
- The JavaScript string operations the components use (`trim`, `includes`,
  `toLowerCase`) are defined in `Text`, with their own lemmas.

The client code contains no day-availability computation, unlock countdown or
debounced progress updates. It only reads `isAvailable`, `completed` and
`libre_mode` as they arrive.

Modules:

| module | what it models |
|---|---|
| `Wrappers` | `Option` |
| `Tasks` | the three tasks and their flags |
| `Text` | string helpers |
| `App` | `handleTaskUpdate` |
| `Calendar` | the calendar view |
| `Dashboard` | the dashboard's progress list and task buttons |
| `StartDay` | the start-day picker |
| `Profile` | the profile dialog |
| `Layout` | the main layout's menu and dialogs |
| `Chat` | the chatbot |

## Model

| member | source | states |
|---|---|---|
| Tasks.TaskFlags.Set | src/App.tsx:39 | the spread `{ ...tasks, [task]: v }` sets flag `task` to `v` and keeps the other two flags |
| Tasks.TaskFlags.Count | src/components/Calendar.tsx:75-82 | the number of done tasks is at most 3; it is 0 exactly when none is done and 3 exactly when all are |
| Tasks.CountTrue | src/components/Calendar.tsx:81 | `filter(Boolean).length` is at most the length; it is 0 exactly when every entry is false and the full length exactly when every entry is true |
| Tasks.CountIsFilterLength | src/components/Calendar.tsx:75-82 | the per-day count equals `[meditation, video, rosary].filter(Boolean).length` |
| Tasks.CountAfterSet | src/components/Dashboard.tsx:105-118 | setting one flag changes the day's count by exactly the change of that flag |
| App.HandleTaskUpdate | src/App.tsx:35-43 | keeps the list's length and day order; on each record of that day, only that task becomes `completed` (title, `completed`, `isAvailable` and the other flags kept); other records are unchanged |
| App.HandleTaskUpdateIdempotent | src/App.tsx:35-43 | applying the same update twice gives the same list as applying it once |
| App.HandleTaskUpdateNoMatch | src/App.tsx:37-42 | when no record has that day, the list is unchanged |
| Calendar.GetDayProgress | src/components/Calendar.tsx:75-82 | a day's progress is in 0..3; it is 0 exactly when no task is done and 3 exactly when all are |
| Calendar.FindIndex | src/components/Calendar.tsx:85 | `find` stops at the first record of that day, and returns nothing exactly when no record has it |
| Calendar.FindDay | src/components/Calendar.tsx:85 | the result is the first record of that day, or nothing exactly when no record has that day |
| Calendar.HandleTaskToggle | src/components/Calendar.tsx:84-90 | it requests nothing exactly when no record has that day; otherwise it requests the negation of the task's flag in the first record of that day |
| Calendar.ToggleFlipsExactlyThatFlag | src/components/Calendar.tsx:84-90 | with one record per day, a toggle followed by `handleTaskUpdate` negates exactly that flag of that day and leaves everything else unchanged |
| Calendar.ToggleTwiceRestores | src/components/Calendar.tsx:84-90 | with one record per day, toggling the same task of the same day twice restores the list |
| Calendar.CompletedDays | src/components/Calendar.tsx:157 | "Días Completados" is at most the number of days; it is 0 exactly when no day is completed and the number of days exactly when all are |
| Calendar.TaskCount | src/components/Calendar.tsx:163-175 | each task summary is at most the number of days; it is 0 exactly when no day has the task done and the number of days exactly when all do |
| Calendar.SummaryCountsAddUp | src/components/Calendar.tsx:163-175 | the three task summaries add up to the sum of the "n/3" figures on the day cards (line 209) |
| Calendar.UpdateKeepsCompletedDays | src/components/Calendar.tsx:157 | a task update never changes the "Días Completados" count |
| Calendar.UpdateKeepsOtherTaskCounts | src/components/Calendar.tsx:163-175 | a task update leaves the summaries of the other two tasks unchanged |
| Calendar.HandleDayClick | src/components/Calendar.tsx:202 | after a click the open day is the one before or the clicked card; the clicked card is open exactly when it is available or was already open; a click never opens an unavailable day |
| Calendar.OpenedDayWasAvailable | src/components/Calendar.tsx:202 | starting with no open day or an available one, after any series of clicks the open day is available and is either the one open before or a clicked card |
| Calendar.ResyncSelection | src/components/Calendar.tsx:111-118 | an open day is replaced by the first record with the same day number if there is one, and is otherwise left as it is; with no open day nothing opens |
| Calendar.ResyncSettles | src/components/Calendar.tsx:111-118 | re-running the effect on its own result changes nothing, so the effect settles after one step |
| Calendar.ResyncAfterToggle | src/components/Calendar.tsx:84-90 | after a toggle of the open day, the re-synchronised open day shows the negated flag |
| Dashboard.InitialProgress | src/components/Dashboard.tsx:87-92 | the initial list has 33 records in strictly increasing day order; looking up any day 1..33 finds a record of that day with no task done; no task is done and the total is 0 |
| Dashboard.ToggleTask | src/components/Dashboard.tsx:105-109 | keeps the list's length and day order; on each record of that day, only that task is negated; other records are unchanged |
| Dashboard.ToggleTaskInvolution | src/components/Dashboard.tsx:105-109 | toggling the same task of the same day twice restores the list |
| Dashboard.GetDayProgress | src/components/Dashboard.tsx:111-118 | a day's progress is in 0..3; it is 0 exactly when no task is done and 3 exactly when all are |
| Dashboard.TotalProgress | src/components/Dashboard.tsx:120-124 | the total is at most `maxProgress` (3 per day); it equals it exactly when every task is done, and is 0 exactly when none is |
| Dashboard.MaxProgress | src/components/Dashboard.tsx:124 | `maxProgress` bounds the total, and the total reaches it exactly when every task is done |
| Dashboard.RoundHalfUp | src/components/Dashboard.tsx:125-127 | the result is the integer nearest to `num / den`, with halves rounded up (`Math.round`) |
| Dashboard.OverallProgressPercentage | src/components/Dashboard.tsx:125-127 | for a non-empty list, the percentage is at most 100 |
| Dashboard.PercentageExtremes | src/components/Dashboard.tsx:120-127 | for lists of 1 to 66 days, the percentage is 100 exactly when every task is done and 0 exactly when none is |
| Dashboard.InitialProgressIsBlank | src/components/Dashboard.tsx:87-127 | the initial list's progress percentage is 0 |
| Dashboard.ToggleMovesTotal | src/components/Dashboard.tsx:105-123 | a toggle raises the total by one for each record of that day whose flag was clear, and lowers it by one for each record whose flag was set |
| Dashboard.ClickTaskButton | src/components/Dashboard.tsx:238-242 | a task button click negates that task for the displayed day in `progress`, and leaves `dailyContent` (which the buttons display) unchanged |
| Dashboard.ButtonShowsDone | src/components/Dashboard.tsx:235-237 | the "Completada"/"Pendiente" text read from `dailyContent.tasks`; `ButtonIgnoresClicks` proves no click changes it |
| Dashboard.ButtonIgnoresClicks | src/components/Dashboard.tsx:235-244 | as written, no click changes what any task button shows |
| Dashboard.ButtonIgnoresClicksExample | src/components/Dashboard.tsx:235-244 | on the fresh dashboard, one click on meditation marks day 1's meditation done in `progress`, yet the button still reads "Pendiente" |
| Dashboard.FindProgress | src/components/Dashboard.tsx:105-109 | the first record of the given day in `progress`, or nothing exactly when that day has no record |
| Dashboard.FindProgressFindsFirst | src/components/Dashboard.tsx:105-109 | the record found for a day is the one at that day's first index |
| Dashboard.ButtonFromProgressFollowsClicks | src/components/Dashboard.tsx:235-244 | with the button read from `progress`, each click flips what the button shows |
| StartDay.GridDays | src/components/StartDayModal.tsx:93-96 | the grid has 33 buttons in increasing order, and a day is on the grid exactly when it is in 1..33 |
| StartDay.ConsecrationOrder | src/components/StartDayModal.tsx:119-122 | the order from the chosen day has 33 entries, starts with that day, and every entry is in 1..33 |
| StartDay.ConsecrationOrderCoversEveryDay | src/components/StartDayModal.tsx:119-122 | every day 1..33 occurs in the order |
| StartDay.ConsecrationOrderAdvances | src/components/StartDayModal.tsx:119-122 | each day is followed by the next, and 33 by 1 |
| StartDay.Preview | src/components/StartDayModal.tsx:119-122 | the preview is shown exactly when the selected day is above 1; its next and last days are then in 1..33 |
| StartDay.PreviewMatchesOrder | src/components/StartDayModal.tsx:119-122 | the preview names the first, second and last day of the order |
| StartDay.StartDayModal.constructor | src/components/StartDayModal.tsx:17-18 | the initial state is day 1 without confirmation, and no call has been made |
| StartDay.StartDayModal.HandleDaySelect | src/components/StartDayModal.tsx:20-22 | selecting a grid day sets `selectedDay` to it, which keeps it in 1..33; nothing else changes |
| StartDay.StartDayModal.HandleConfirm | src/components/StartDayModal.tsx:24-30 | the first press only shows the confirmation; a press while it is showing calls `onConfirm(selectedDay)` |
| StartDay.StartDayModal.HandleClose | src/components/StartDayModal.tsx:32-36 | resets to day 1 without confirmation, then calls `onClose` |
| StartDay.StartDayModal.PressBackOrCancel | src/components/StartDayModal.tsx:163-169 | disabled while loading; "Volver" leaves the confirmation and keeps the day; "Cancelar" closes and resets |
| StartDay.StartDayModal.PressConfirm | src/components/StartDayModal.tsx:170-180 | disabled while loading; otherwise it is `handleConfirm` |
| StartDay.StartDayModal.PressCloseIcon | src/components/StartDayModal.tsx:56-62 | disabled while loading; otherwise it is `handleClose` |
| StartDay.PickAndConfirm | src/components/StartDayModal.tsx:17-30 | picking a day and pressing confirm twice calls `onConfirm` once, with exactly that day |
| Profile.SaveNameRequest | src/components/UserProfileModal.tsx:24-27 | a name is sent exactly when its trim is non-empty and the untrimmed text differs from the current name; the name sent is the trimmed text, non-empty and without surrounding whitespace |
| Profile.SaveResendsNameWithSurroundingSpaces | src/components/UserProfileModal.tsx:25-26 | "Ana " with current name "Ana" passes the guard and sends "Ana" again |
| Profile.UserProfileModal.constructor | src/components/UserProfileModal.tsx:19-22 | starts with the mount-time name as `userName` and in the field, not editing, with no delete confirmation and an empty phrase |
| Profile.UserProfileModal.UserNamePropChanges | src/components/MainLayout.tsx:277 | a new `userName` prop replaces the current name and leaves the name field, which was initialised at mount, as it was |
| Profile.UserProfileModal.StartEditing | src/components/UserProfileModal.tsx:92-96 | the edit icon enters editing and changes nothing else |
| Profile.UserProfileModal.StartEditingFromCurrentName | src/components/UserProfileModal.tsx:92-96 | the edit icon as evidently intended: enters editing with the current name in the field |
| Profile.UserProfileModal.EditName | src/components/UserProfileModal.tsx:61-67 | typing replaces the name field and changes nothing else |
| Profile.UserProfileModal.HandleSaveName | src/components/UserProfileModal.tsx:24-29 | `onUpdateName(trimmed)` is called exactly when the guard passes, and editing ends either way |
| Profile.UserProfileModal.CancelEdit | src/components/UserProfileModal.tsx:75-79 | leaves editing and puts the current name back in the field |
| Profile.UserProfileModal.OpenDeleteConfirm | src/components/UserProfileModal.tsx:113-120 | shows the delete confirmation and changes nothing else |
| Profile.UserProfileModal.EditDeleteConfirmation | src/components/UserProfileModal.tsx:134-140 | typing replaces the confirmation text and changes nothing else |
| Profile.UserProfileModal.HandleDeleteAccount | src/components/UserProfileModal.tsx:31-35 | `onDeleteAccount` is called exactly when the typed text equals "Totus Tuus" |
| Profile.UserProfileModal.CancelDelete | src/components/UserProfileModal.tsx:149-153 | hides the confirmation and clears the typed text |
| Profile.UserProfileModal.PressClose | src/components/UserProfileModal.tsx:44-49 | the close icon calls `onClose` and changes no field |
| Profile.EditWithoutTypingSendsStaleName | src/components/UserProfileModal.tsx:20-29 | if the dialog mounted with a non-blank name different from the current one, pressing edit and save without typing sends the mount-time name, trimmed |
| Profile.PlaceholderNameIsSaved | src/components/MainLayout.tsx:277 | mounted with the placeholder "Usuario" before the name "Ana" arrives, edit and save without typing send `onUpdateName("Usuario")` |
| Profile.CorrectedEditWithoutTypingSendsNothing | src/components/UserProfileModal.tsx:24-29 | with editing started from the current name, saving without typing sends nothing, whatever the mount-time name |
| Layout.MissingDataMeansOff | src/components/MainLayout.tsx:73-74 | missing data, a missing user or a missing flag reads as libre mode off and hides the start-day option |
| Layout.MissingFlagsReadDifferently | src/components/MainLayout.tsx:73-74 | a missing `libre_mode` reads like `false`; a missing `has_chosen_start_day` does not, so only an explicit `false` offers the start-day option and `true` hides it |
| Layout.ConfirmRequestsOppositeMode | src/components/MainLayout.tsx:48-57 | the pending action is "deactivate" exactly when libre mode is on, and confirming it requests the opposite of the current mode |
| Layout.MainLayout.constructor | src/components/MainLayout.tsx:31-33 | both dialogs start closed, the action is "activate", and nothing has been sent |
| Layout.MainLayout.HandleLibreModeToggle | src/components/MainLayout.tsx:48-52 | prepares the opposite of the current mode and opens the libre-mode dialog |
| Layout.MainLayout.ConfirmLibreModeToggle | src/components/MainLayout.tsx:54-62 | sends the prepared mode; the dialog closes only when the mutation succeeds |
| Layout.MainLayout.CloseLibreModeModal | src/components/MainLayout.tsx:300 | closes the libre-mode dialog and sends nothing |
| Layout.MainLayout.OpenStartDayModal | src/components/MainLayout.tsx:174-181 | the start-day dialog opens only when the start day may be chosen |
| Layout.MainLayout.HandleStartDaySelection | src/components/MainLayout.tsx:64-71 | sends the chosen day; the dialog closes only when the mutation succeeds |
| Layout.MainLayout.CloseStartDayModal | src/components/MainLayout.tsx:309 | closes the start-day dialog and sends nothing |
| Layout.ToggleThenConfirm | src/components/MainLayout.tsx:48-62 | opening and confirming the libre-mode dialog requests the opposite of the mode shown; the dialog stays open exactly when the mutation fails |
| Text.Trim | src/components/UserProfileModal.tsx:25-26 | `trim` neither lengthens the text nor leaves whitespace at either end |
| Text.TrimIsSlice | src/components/UserProfileModal.tsx:26 | what `trim` keeps is one contiguous piece of the text, with only whitespace around it |
| Text.TrimIdempotent | src/components/UserProfileModal.tsx:26 | trimming twice is trimming once |
| Text.BlankIffAllWhitespace | src/components/Chatbot.tsx:78 | `!s.trim()` holds exactly when the text is whitespace only |
| Text.IsBlank | src/components/Chatbot.tsx:78 | `!s.trim()` (also UserProfileModal.tsx:25); `BlankIffAllWhitespace` proves it holds exactly for whitespace-only text |
| Text.ContainsAt | src/components/Chatbot.tsx:45-70 | `includes` holds exactly when the keyword occurs at some position of the text |
| Text.Contains | src/components/Chatbot.tsx:45-70 | `includes`; `ContainsAt` proves it holds exactly when the keyword occurs at some position |
| Text.LowerChar | src/components/Chatbot.tsx:43 | capitals map to their lower-case letter, every other character is kept, and no result is a capital |
| Text.ToLower | src/components/Chatbot.tsx:43 | `toLowerCase` keeps the length and lowers each character in place |
| Text.ToLowerIdempotent | src/components/Chatbot.tsx:43 | lower-casing twice is lower-casing once |
| Chat.FirstMatchingGroup | src/components/Chatbot.tsx:45-70 | the result is the first keyword group that matches, or nothing exactly when no group matches |
| Chat.ReplyIndex | src/components/Chatbot.tsx:41-75 | the chosen reply is one of the five canned replies |
| Chat.GenerateResponse | src/components/Chatbot.tsx:41-75 | the reply is one of the five canned replies, the one `ReplyIndex` selects |
| Chat.ReplyIsFirstMatchingGroup | src/components/Chatbot.tsx:43-73 | the reply is that of the first keyword group ("consagración"/"consagrar", "rosario"/"rezar", "humildad"/"humilde", "total"/"entregar", "33"/"días"/"preparación") found in the lower-cased message; only when none matches is it the random pick |
| Chat.ConsecrationWins | src/components/Chatbot.tsx:45-49 | a message naming consecration gets reply 0, whatever else it contains |
| Chat.ReplyIgnoresCase | src/components/Chatbot.tsx:43 | a message and its lower-cased form get the same reply |
| Chat.UserCount | src/components/Chatbot.tsx:87 | the number of user messages is at most the length of the list |
| Chat.BotCount | src/components/Chatbot.tsx:92-101 | bot and user messages together make up the whole list |
| Chat.Chatbot.constructor | src/components/Chatbot.tsx:13-22 | the list holds exactly the greeting bot message; the input is empty, the bot is not typing and no reply is pending |
| Chat.Chatbot.SetInput | src/components/Chatbot.tsx:210 | typing replaces the input and changes nothing else |
| Chat.Chatbot.HandleSendMessage | src/components/Chatbot.tsx:77-91 | blank input changes nothing; otherwise exactly one user message is appended, the input is cleared, `isTyping` is set and a reply is scheduled |
| Chat.Chatbot.ReplyTimerFires | src/components/Chatbot.tsx:92-101 | the delayed reply appends exactly one bot message, the reply to the sent text, and clears `isTyping` |
| Chat.Chatbot.PressSendButton | src/components/Chatbot.tsx:216-218 | the send button sends exactly when the input is not blank and no reply is awaited |
| Chat.Chatbot.HandleKeyPress | src/components/Chatbot.tsx:104-109 | Enter without Shift sends; Shift+Enter and every other key do nothing |
| Chat.Exchange | src/components/Chatbot.tsx:13-101 | one send and its reply give the greeting, the user's message and the bot's reply, in that order |

## Left out

- Rendering: JSX, styles, icons, embedded videos, `window.open`, routing, scrolling and the sidebar's open state are presentation only.
- Data loading: the `fetch` of the mock data in the calendar page, the dashboard and `App` is I/O. The loaded lists are parameters.
- Services: `src/services/api.ts`, `userService.ts` and `authService.ts` are not part of this model. They are HTTP, React Query cache and `localStorage` plumbing.
- Mutation wiring: a mutation's success or failure is the `succeeded` parameter of the layout's methods. The calls are recorded, not performed.
- Profile dialog wiring: the layout's handlers for the profile dialog's name update, account deletion and logout are not modelled, for the same reason.
- Timers: the chatbot's 1500 ms reply delay is a separate step, `ReplyTimerFires`. A `pendingReplies` queue holds the texts whose timer is running.
- Chat message fields: the `id` and `timestamp` of chat messages come from the clock and are left out.
- Chat.ReplyIndex: the random fallback `Math.floor(Math.random() * 5)` is the parameter `pick`, an unspecified draw in 0..4.
- Text.LowerChar: `toLowerCase` is modelled for A–Z and the Latin-1 capitals only. Other scripts, and characters whose lower case is longer than one character, are left out. The keywords matched are all within this range.
- Text.IsWhitespace: the character set is the ECMAScript whitespace and line-terminator set, written out.
- Dashboard.OverallProgressPercentage: floating-point rounding of `(total / max) * 100` is not modelled. The value is the exact rational `100 * total / max`, rounded half up. The empty list (0/0, NaN in the source) is excluded by the precondition.
- Dashboard.PercentageExtremes: the "100 exactly when all done, 0 exactly when none done" statement holds only up to 66 days; beyond that one task rounds away. The programme's list has 33 days.
- Dashboard totals: `totalProgress` and `overallProgressPercentage` are computed but never displayed. The progress bar shows `userData.progressPercentage`, a loaded value.
- Calendar.ToggleFlipsExactlyThatFlag, Calendar.ToggleTwiceRestores, Calendar.ResyncAfterToggle: these require one record per day. `handleTaskToggle` reads the first matching record, while `handleTaskUpdate` writes every matching record.
- StartDay.StartDayModal.HandleConfirm: after a successful confirmation the parent only hides the dialog. Its `selectedDay` and `showConfirmation` are not reset, and the model keeps them as they are.
- StartDay.StartDayModal.HandleDaySelect: it requires a grid day, because only the 33 grid buttons call it.
- Chat.Chatbot.HandleKeyPress: it does not check `isTyping`. The source relies on the input being disabled while typing (line 214), and the model keeps the handler exactly as written.
- Absent logic: day availability, unlocking, the countdown, libre-mode gating, and debouncing or rate-limit handling of progress updates are absent from the client code. `isAvailable`, `completed` and `libre_mode` are inputs.
- Static components: the homepage, the about, privacy and libre-mode dialogs, the notification toast, the authentication page's mock submit and the build configuration have no logic to model.

## Findings

| source | as written | input that shows it | evidently intended | confidence | as-written member | corrected member |
|---|---|---|---|---|---|---|
| src/components/Dashboard.tsx:235-244 | the meditation, video and rosary buttons read `dailyContent.tasks` but toggle `progress` (lines 105-109, 283, 346), so a click never changes what they show | the fresh dashboard on day 1 with no task done: one click on the meditation button sets the flag in `progress`, yet the button still reads "Pendiente" | the button shows the flag of the displayed day in `progress`, so each click flips it | medium, not executed | Dashboard.ButtonIgnoresClicksExample | Dashboard.ButtonFromProgressFollowsClicks |
| src/components/UserProfileModal.tsx:20 | the name field is initialised from the `userName` prop once, at mount; the dialog is always mounted (MainLayout.tsx:274-277) and the name arrives later (App.tsx:63-68), so the field keeps the placeholder | the dialog mounts with "Usuario", the name "Ana" then arrives, and the user presses edit and save without typing: `onUpdateName("Usuario")` renames the account to the placeholder | the field holds the current name when editing starts, so saving without typing sends nothing | medium, not executed | Profile.PlaceholderNameIsSaved | Profile.CorrectedEditWithoutTypingSendsNothing |
