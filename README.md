# shipbid-app core in Dafny

shipbid-app is a freight-auction marketplace front end. Shippers post
shipments, transporters bid on them, and posting or bidding is paid for with
tokens. There is no backend: auctions, bids, balances and notifications live
in component state or in sample arrays. This project models the decision
logic inside the components (page state, handlers, guards, labels,
validators, lookups) and proves what those fragments promise.

Modules follow the components:

- `Types`: the entities (user, auction, bid, notification, token package, message).
- `Text`: the string operations the components use (`toLowerCase`,
  `toUpperCase`, `includes`, `substring`, `trim`, decimal rendering), on ASCII.
- `AuctionMonitor`: the live countdown (a `Monitor` class whose `Tick` is the
  timer callback), the bid prepend, the winner dialog and the guards.
- `AuctionList`: the four-part filter, the "ending soon" and "new" tabs, and the
  hours/minutes split.
- `NotificationList`: the bell (unread count, click requests, `Popover` open flag).
- `Dashboard`: the page state (a `Page` class): balance, notifications, role.
- `AuctionDetails` and `AuctionCard`: who is offered which button, the status
  labels, the description truncation, and the bid-details dialog.
- `FormSubmission`, `AuctionForm`, `BidForm` and `RatingForm`: schemas, defaults,
  the token guard against the disabled button, and two-phase submission.
- `ChatInterface`: the draft input (`Composer`), Enter, sides and initials.
- `TokenPurchase`: the catalog, the lookup with fallback, and the payment flow.

Every delayed step (`setTimeout`, `await`, `setInterval`) is split into the
part that runs at once and a separate method for the part that runs when the
delay ends (`Submit`/`Complete`, `Pay`/`Complete`, `Tick`). The values a
delayed step uses are captured when it starts, as the closures do.

Where the code and the written design differ, the model follows the code;
the one exception is the dashboard's token credit, where the page uses the
corrected credit of "## Findings".
The design describes accepting a bid (rejecting the others, recording the
winner, debiting tokens, notifying), but no shown line implements it:
acceptance is only a callback to the parent and winner confirmation is a
stub. The model states exactly that.

## Model

| member | source | states |
|---|---|---|
| AuctionMonitor.TickAtZeroIsFixed | src/components/auction/AuctionMonitor.tsx:127-130 | a tick on 0:00:00 returns 0:00:00, so the countdown stops there |
| AuctionMonitor.TickDecrements | src/components/auction/AuctionMonitor.tsx:132-152 | from any in-range non-zero time a tick stays in range and lowers the total seconds by exactly one |
| AuctionMonitor.TickBorrows | src/components/auction/AuctionMonitor.tsx:136-144 | a borrow sets the lower field to 59 and takes one from the next field; otherwise only the seconds drop |
| AuctionMonitor.IterateCountsDown | src/components/auction/AuctionMonitor.tsx:126-153 | k ticks (k at most the total) lower the total seconds by k and stay in range |
| AuctionMonitor.TicksToZero | src/components/auction/AuctionMonitor.tsx:126-153 | exactly h·3600+m·60+s ticks bring an in-range time to 0:00:00; fewer never do, and more stay there |
| AuctionMonitor.InitialCountdownLength | src/components/auction/AuctionMonitor.tsx:58-62 | the initial 5:30:00 reaches zero after 19800 ticks and not after 19799 |
| AuctionMonitor.FormatTimeTwoDigits | src/components/auction/AuctionMonitor.tsx:159-161 | every value 0..59 renders as two digits, with a leading '0' exactly below ten, and reads back as the same number |
| AuctionMonitor.ClockLength | src/components/auction/AuctionMonitor.tsx:231-233 | the clock text of an in-range time under 60 hours is HH:MM:SS, eight characters |
| AuctionMonitor.GuardsNeedActive | src/components/auction/AuctionMonitor.tsx:342-361 | "select winner" only for the owner of an active auction, "make bid" only for a transporter on an active one |
| AuctionMonitor.StatusLabel | src/components/auction/AuctionMonitor.tsx:219 | the badge reads "Aktif" exactly for an active auction |
| AuctionMonitor.StatusLabelMergesEnded | src/components/auction/AuctionMonitor.tsx:219 | completed and cancelled both read "Selesai" |
| AuctionMonitor.UrgentOnceUrgent | src/components/auction/AuctionMonitor.tsx:217 | once under an hour is left, the badge stays urgent for every later tick |
| AuctionMonitor.InitialNotUrgent | src/components/auction/AuctionMonitor.tsx:58-62 | the initial time does not show the urgent badge |
| AuctionMonitor.Monitor.constructor | src/components/auction/AuctionMonitor.tsx:58-93 | starts at 5:30:00 with the three sample bids and both dialogs closed |
| AuctionMonitor.Monitor.Tick | src/components/auction/AuctionMonitor.tsx:126-153 | the step-by-step update of the three fields equals one application of the tick function, and nothing else changes |
| AuctionMonitor.Monitor.OpenBidForm | src/components/auction/AuctionMonitor.tsx:361-362 | opens the bid form, only where "make bid" is offered |
| AuctionMonitor.Monitor.SubmitBid | src/components/auction/AuctionMonitor.tsx:179-192 | the new bid comes first, every earlier bid follows in its old order, the count rises by one and the form closes |
| AuctionMonitor.Monitor.SelectWinner | src/components/auction/AuctionMonitor.tsx:194-197 | only records the selected bid and opens the dialog |
| AuctionMonitor.Monitor.ConfirmWinner | src/components/auction/AuctionMonitor.tsx:199-202 | only closes the dialog; bids, selection and time are unchanged |
| Text.Lower | src/components/auction/AuctionList.tsx:56-58 | lower-casing keeps the length and maps each ASCII capital to its small letter |
| Text.ContainsAt | src/components/auction/AuctionList.tsx:56-58 | `includes` holds exactly when the needle occurs at some position |
| Text.TrimEmptyIffBlank | src/components/communication/ChatInterface.tsx:42 | the trimmed text is empty exactly when every character is whitespace |
| Text.TrimShape | src/components/communication/ChatInterface.tsx:42 | a trimmed text is a contiguous piece of the original with no whitespace at either end |
| Text.ParseNatToString | src/components/auction/AuctionMonitor.tsx:160 | the decimal rendering of a number reads back as that number |
| AuctionList.Keep | src/components/auction/AuctionList.tsx:54 | the filter result is no longer than its input and holds only members that pass |
| AuctionList.KeepComplete | src/components/auction/AuctionList.tsx:54 | every member that passes is kept |
| AuctionList.KeepIsSubsequence | src/components/auction/AuctionList.tsx:54 | the kept members keep their relative order |
| AuctionList.KeepAppend | src/components/auction/AuctionList.tsx:54 | filtering distributes over concatenation |
| AuctionList.FilteredCharacterized | src/components/auction/AuctionList.tsx:54-72 | the filtered list is an ordered subsequence; every kept auction passes all four tests and every dropped one fails one |
| AuctionList.EmptySearchMatchesAll | src/components/auction/AuctionList.tsx:55-58 | an empty search text matches every auction |
| AuctionList.DefaultFiltersKeep | src/components/auction/AuctionList.tsx:46-72 | with the initial filters and no search, an auction is shown exactly when its current bid is in 0..10000000 |
| AuctionList.BucketsDisjoint | src/components/auction/AuctionList.tsx:245-295 | "ending soon" and "new" are disjoint parts of the filtered list, and 60..300 minutes is in neither |
| AuctionList.EndingSoonComplete | src/components/auction/AuctionList.tsx:245-295 | a shown auction is in "ending soon" exactly when under 60 minutes remain and in "new" exactly when over 300 do |
| AuctionList.JsRem | src/components/auction/AuctionList.tsx:76 | JavaScript's remainder agrees with the mathematical one on non-negative numbers and keeps the dividend's sign otherwise |
| AuctionList.TimePartsSplit | src/components/auction/AuctionList.tsx:74-78 | for minutes ≥ 0 the hours and minutes recombine to the input, with minutes in 0..59 |
| AuctionList.NegativeMinutesMisrendered | src/components/auction/AuctionList.tsx:74-78 | -30 minutes renders as "-1j -30m": floored hours and truncated minutes no longer recombine |
| AuctionList.BadgeMatchesEndingSoon | src/components/auction/AuctionList.tsx:354 | the red badge marks exactly the auctions of the "ending soon" tab |
| NotificationList.UnreadCount | src/components/notification/NotificationList.tsx:28 | the unread count never exceeds the list length and is zero exactly when all are read |
| NotificationList.UnreadCountAppend | src/components/notification/NotificationList.tsx:28 | the count of a concatenation is the sum of the counts |
| NotificationList.BadgeIffSomeUnread | src/components/notification/NotificationList.tsx:47-57 | badge and "Mark all as read" appear exactly when some notification is unread |
| NotificationList.ClickEffect | src/components/notification/NotificationList.tsx:30-37 | a click asks to mark exactly its own id iff unread, and to navigate to its link iff it has a non-empty one |
| NotificationList.Popover.constructor | src/components/notification/NotificationList.tsx:26 | the popover starts closed |
| NotificationList.Popover.SetOpen | src/components/notification/NotificationList.tsx:43 | the trigger sets the open flag |
| NotificationList.Popover.Click | src/components/notification/NotificationList.tsx:30-40 | a click issues the requests of the click rule in order and closes the popover; a throwing mark-as-read callback stops the navigation, and any throwing callback leaves the popover open |
| Dashboard.InitialRole | src/pages/Dashboard.tsx:35-39 | the first role is transporter exactly when the saved value is "transporter" |
| Dashboard.Switched | src/pages/Dashboard.tsx:189 | switching always changes the role |
| Dashboard.SwitchTwiceRestores | src/pages/Dashboard.tsx:188-190 | switching twice restores the role |
| Dashboard.SavedRoleRoundTrip | src/pages/Dashboard.tsx:188-192 | the saved role, read back on the next visit, is the role in force |
| Dashboard.PackageAmount | src/pages/Dashboard.tsx:146-153 | "basic", "premium", "enterprise" credit 50, 150, 500 and every other id 50 |
| Dashboard.ManagementPurchasesCreditFifty | src/pages/Dashboard.tsx:148-153 | as written, every package the token-management card sends ("1", "2", "3") is credited 50 tokens |
| Dashboard.CreditAmount | src/pages/Dashboard.tsx:146-153 | corrected credit: an offered package is credited its advertised amount, and always at least 50 |
| Dashboard.CreditAmountCorrect | src/pages/Dashboard.tsx:148-153 | the corrected credit agrees with the written table on its keys and pays every offered package its amount |
| Dashboard.MarkRead | src/pages/Dashboard.tsx:165-172 | mark-one-read keeps the length |
| Dashboard.MarkReadOnlyTouchesId | src/pages/Dashboard.tsx:165-172 | matching notifications become read; order, other notifications and all other fields stay |
| Dashboard.MarkReadIdempotent | src/pages/Dashboard.tsx:166-172 | marking the same id twice equals marking it once |
| Dashboard.MarkAllRead | src/pages/Dashboard.tsx:178-182 | mark-all-read keeps the length |
| Dashboard.MarkAllReadSpec | src/pages/Dashboard.tsx:178-182 | all become read, no other field changes, it is idempotent and leaves nothing unread |
| Dashboard.MarkReadNeverRaises | src/pages/Dashboard.tsx:165-172 | marking never raises the unread count |
| Dashboard.ClickLowersUnreadByOne | src/pages/Dashboard.tsx:165-172 | with unique ids, clicking an unread notification in the bell lowers the unread count by exactly one |
| Dashboard.ClickOnReadChangesNothing | src/components/notification/NotificationList.tsx:31-33 | clicking a read notification requests no marking |
| Dashboard.MockNotificationsUnread | src/pages/Dashboard.tsx:99-129 | the sample notifications have unique ids and two unread; marking "1" leaves one |
| Dashboard.Page.constructor | src/pages/Dashboard.tsx:35-41 | the page starts with the stored role, 120 tokens and no notifications |
| Dashboard.Page.LoadNotifications | src/pages/Dashboard.tsx:99-129 | the mount effect installs the fetched notifications and changes nothing else |
| Dashboard.Page.PurchaseTokens | src/pages/Dashboard.tsx:146-163 | the balance rises by exactly the corrected credit, which is the written table's amount on the table's own keys, and by at least 50 |
| Dashboard.Page.MarkAsRead | src/pages/Dashboard.tsx:165-176 | the notifications become the mark-one-read of the old list |
| Dashboard.Page.MarkAllAsRead | src/pages/Dashboard.tsx:178-182 | the notifications become the mark-all-read of the old list |
| Dashboard.Page.SwitchRole | src/pages/Dashboard.tsx:188-193 | flips the role and returns the value it stores |
| AuctionDetails.GuardsByRole | src/components/auction/AuctionDetails.tsx:165-229 | acceptance only for a shipper, bidding only for a transporter, no bid row with both button sets, nothing on an ended auction but the shipper chat |
| AuctionDetails.ChatWithShipperIgnoresStatus | src/components/auction/AuctionDetails.tsx:229 | "Chat with Shipper" is offered to a transporter on an accepted bid whatever the auction's status |
| AuctionDetails.BidRowRequests | src/components/auction/AuctionDetails.tsx:211-240 | a pending bid row of an active auction gives a shipper chat-with-transporter and accept-this-bid; an accepted bid gives a transporter chat-with-shipper; otherwise nothing |
| AuctionDetails.AcceptRequestNamesItsBid | src/components/auction/AuctionDetails.tsx:222 | an accept request names exactly the bid of its row, and only where acceptance is offered |
| AuctionDetails.StatusLabelInjective | src/components/auction/AuctionDetails.tsx:75-88 | each status has its own label and badge colour; cancelled reads "Cancelled" in red |
| AuctionDetails.HeaderRequests | src/components/auction/AuctionDetails.tsx:165-175 | the Place Bid button asks to bid on this auction, and only a transporter on an active auction sees it |
| AuctionDetails.TimelineFollowsStatus | src/components/auction/AuctionDetails.tsx:146-148 | time remaining is shown exactly while the auction is active, the end date otherwise |
| AuctionDetails.BidDialog.constructor | src/components/auction/AuctionDetails.tsx:50 | the dialog starts with no bid selected |
| AuctionDetails.BidDialog.Close | src/components/auction/AuctionDetails.tsx:251-289 | dismissing or Close clears the selection and so closes the dialog |
| AuctionDetails.BidDialog.AcceptSelected | src/components/auction/AuctionDetails.tsx:290-294 | requests acceptance of the selected bid's id and closes; the auction is not changed |
| AuctionDetails.DialogAgreesWithList | src/components/auction/AuctionDetails.tsx:282 | the dialog offers acceptance of its bid exactly when that bid's row does |
| AuctionCard.ShownDescription | src/components/auction/AuctionCard.tsx:37-38 | up to 60 characters unchanged; longer is the first 60 plus "...", 63 characters; always starts with the first min(60, length) |
| AuctionCard.ShownDescriptionBounds | src/components/auction/AuctionCard.tsx:37-38 | never over 63 characters, and changed only for descriptions over 60 |
| AuctionCard.StatusLabelMatchesDetails | src/components/auction/AuctionCard.tsx:42-46 | the card names every status as the detail view does |
| AuctionCard.CardControls | src/components/auction/AuctionCard.tsx:72-107 | shippers get View Details and the bid count, transporters Place Bid and the shipper line; Place Bid is disabled iff the auction is not active |
| AuctionCard.ControlsAgreeWithDetails | src/components/auction/AuctionCard.tsx:91-107 | each role sees one of the two buttons, and Place Bid is enabled exactly where the detail view offers it |
| FormSubmission.Decide | src/components/auction/AuctionForm.tsx:82-92 | a submission starts exactly for valid values with balance ≥ cost; valid values with balance < cost stop at the guard |
| FormSubmission.GuardAgreesWithButton | src/components/auction/AuctionForm.tsx:103 | whenever the guard would stop a submission the button is disabled, and an enabled button with valid values starts one |
| AuctionForm.DefaultsNeverValid | src/components/auction/AuctionForm.tsx:71-79 | the default values fail every field of the schema |
| AuctionForm.BoundsAreTight | src/components/auction/AuctionForm.tsx:26-48 | each schema bound is needed: one step below any of them invalidates valid input |
| AuctionForm.Dialog.constructor | src/components/auction/AuctionForm.tsx:60-80 | the form starts with the defaults and a token cost of 20 unless one is given |
| AuctionForm.Dialog.Edit | src/components/auction/AuctionForm.tsx:69-80 | typing changes only the values |
| AuctionForm.Dialog.Cancel | src/components/auction/AuctionForm.tsx:244 | Cancel asks the dialog to close and changes nothing else |
| AuctionForm.Dialog.Submit | src/components/auction/AuctionForm.tsx:82-92 | a submission starts only for valid values and enough tokens, carrying those values; otherwise nothing changes |
| AuctionForm.Dialog.Complete | src/components/auction/AuctionForm.tsx:92-100 | the parent receives the captured valid values; unless its handler throws, the form resets and closes; submitting ends either way |
| BidForm.DefaultsNeverValid | src/components/auction/BidForm.tsx:59-62 | the defaults never validate, whatever the auction |
| BidForm.NoBudgetCap | src/components/auction/BidForm.tsx:27-34 | any amount ≥ 1 with ten characters of notes validates, including amounts above the budget |
| BidForm.Dialog.constructor | src/components/auction/BidForm.tsx:47-63 | the form starts from the auction's defaults and a token cost of 10 unless one is given |
| BidForm.Dialog.Edit | src/components/auction/BidForm.tsx:57-63 | typing changes only the values |
| BidForm.Dialog.Cancel | src/components/auction/BidForm.tsx:170 | Cancel asks the dialog to close and changes nothing else |
| BidForm.Dialog.Submit | src/components/auction/BidForm.tsx:65-75 | a submission starts only for valid values and enough tokens; otherwise nothing changes |
| BidForm.Dialog.Complete | src/components/auction/BidForm.tsx:75-83 | the parent receives the captured valid values; unless its handler throws, the form resets and closes |
| RatingForm.DefaultsNeverValid | src/components/rating/RatingForm.tsx:53-59 | the default rating 0 and empty review are invalid |
| RatingForm.FilledAmong | src/components/rating/RatingForm.tsx:100-113 | at most k of the first k stars are filled |
| RatingForm.FilledPrefix | src/components/rating/RatingForm.tsx:110 | star k is filled iff k ≤ (hover, else rating), so the filled stars are a prefix as long as that value clamped to 0..5 |
| RatingForm.HoverOverrides | src/components/rating/RatingForm.tsx:105-110 | while hovering star k exactly k stars are filled whatever the rating; without hover the rating's stars are |
| RatingForm.Label | src/components/rating/RatingForm.tsx:117-121 | a label is shown exactly for ratings 1..5 |
| RatingForm.LabelInjective | src/components/rating/RatingForm.tsx:117-121 | distinct ratings get distinct labels, and the labelled ratings are the ones the schema accepts |
| RatingForm.EnabledMeansRatingInRange | src/components/rating/RatingForm.tsx:160 | with ratings from the stars, an enabled submit button means the rating is in 1..5 |
| RatingForm.Dialog.constructor | src/components/rating/RatingForm.tsx:50-59 | starts with no hover, rating 0 and an empty review |
| RatingForm.Dialog.MouseEnter | src/components/rating/RatingForm.tsx:105 | hovering star k sets the hover to k and fills k stars |
| RatingForm.Dialog.MouseLeave | src/components/rating/RatingForm.tsx:106 | leaving resets the hover to 0 and shows the rating's stars |
| RatingForm.Dialog.ClickStar | src/components/rating/RatingForm.tsx:107 | clicking star k chooses rating k and changes nothing else |
| RatingForm.Dialog.EditReview | src/components/rating/RatingForm.tsx:135-139 | typing changes only the review |
| RatingForm.Dialog.Cancel | src/components/rating/RatingForm.tsx:154 | Cancel asks the dialog to close |
| RatingForm.Dialog.Submit | src/components/rating/RatingForm.tsx:61-62 | a submission starts exactly for values the schema accepts; there is no token check |
| RatingForm.Dialog.Complete | src/components/rating/RatingForm.tsx:63-74 | the parent receives the captured valid values; unless its handler throws, the form resets and closes |
| ChatInterface.SendOnce | src/components/communication/ChatInterface.tsx:41-46 | a blank draft is not sent and stays; any other is sent untrimmed and cleared |
| ChatInterface.ButtonMatchesGuard | src/components/communication/ChatInterface.tsx:143 | the send button is disabled for exactly the drafts the handler refuses |
| ChatInterface.SendTwiceSendsOnce | src/components/communication/ChatInterface.tsx:41-46 | a second send right after a send sends nothing |
| ChatInterface.Initials | src/components/communication/ChatInterface.tsx:63 | the initials are the first min(2, length) characters, upper-cased |
| ChatInterface.MessageInitials | src/components/communication/ChatInterface.tsx:84-122 | a message is the current user's iff they sent it; its avatar then shows their initials, otherwise the other participant's |
| ChatInterface.InitialsStable | src/components/communication/ChatInterface.tsx:63 | initials are already upper-case, and a name without small letters keeps its first two characters |
| ChatInterface.Composer.constructor | src/components/communication/ChatInterface.tsx:26 | the draft starts empty |
| ChatInterface.Composer.Change | src/components/communication/ChatInterface.tsx:137 | typing replaces the draft |
| ChatInterface.Composer.Send | src/components/communication/ChatInterface.tsx:41-46 | sending follows the send rule on the old draft; if the parent's callback throws, the message was handed over but the draft stays |
| ChatInterface.Composer.KeyDown | src/components/communication/ChatInterface.tsx:48-52 | Enter behaves exactly as the send button, a throwing callback included; other keys change nothing |
| Types.FindFirst | src/components/token/TokenPurchase.tsx:75 | the lookup is empty exactly when nothing matches, and otherwise gives the first matching element |
| TokenPurchase.SelectedPackage | src/components/token/TokenPurchase.tsx:75-76 | the result is always in the catalog; the matching package when one exists, else the first |
| TokenPurchase.SelectionIsExact | src/components/token/TokenPurchase.tsx:52-76 | the three ids are distinct, each selects its own package, unknown ids select BASIC |
| TokenPurchase.InitialTotal | src/components/token/TokenPurchase.tsx:285 | the initial selection shows a total of 100000 for 100 tokens |
| TokenPurchase.Page.constructor | src/components/token/TokenPurchase.tsx:43-50 | starts with "basic" and "credit-card", nothing processing, balance 0 unless given |
| TokenPurchase.Page.SelectPackage | src/components/token/TokenPurchase.tsx:113 | the selection and the shown total change, nothing else |
| TokenPurchase.Page.SelectPaymentMethod | src/components/token/TokenPurchase.tsx:161 | only the payment method changes |
| TokenPurchase.Page.Pay | src/components/token/TokenPurchase.tsx:78-81 | the payment starts, capturing the current selection, and disables the button |
| TokenPurchase.Page.Complete | src/components/token/TokenPurchase.tsx:81-85 | processing ends, the confirmation opens and the captured id is reported; the balance is untouched |
| TokenPurchase.Page.SetConfirmation | src/components/token/TokenPurchase.tsx:299 | the confirmation dialog follows its open flag |
| TokenPurchase.PayThenReselect | src/components/token/TokenPurchase.tsx:78-86 | the id reported is the one selected at payment, even if the selection changes while processing |

## Left out

- Timers and async delays: the interval and the timeouts are not modelled. A delayed step is a separate method, and one countdown tick is the function `Next`.
- The progress percentage of the monitor, rating averages and `toFixed`: these are floating point.
- Weights, amounts and ratings are integers; fractional weights are not modelled.
- Currency and date formatting (`Intl`, date-fns, `toLocaleString`): library calls. The timeline keeps only which of the two lines is shown.
- Schema mechanics (coercion, resolvers, error messages): each schema is a predicate on typed values, and the handler is called only with values that pass it.
- `localStorage`, navigation and scrolling are left out. The saved role is a parameter and a return value, and navigation is a request in the click result.
- Unicode case mapping and whitespace: `toLowerCase`, `toUpperCase` and `trim` act on ASCII only.
- Several submissions of one form at once are not modelled: `Submit` and `Pay` require that none is running, as the disabled button ensures.
- The sample notifications carry no user id or type in the page. The model gives them an empty user id and the system type.
- Prototype keys such as "toString" in the credit table are left out. `Dashboard.PackageAmount` gives them 50, while the page would read an inherited member.
- The auction lifecycle of the design (rejecting other bids, recording a winner, debiting tokens, expiry, notifications) is left out: no code implements it.
- The bid form props that the monitor passes do not match the bid form. Each side is modelled on its own, and the monitor's minimum bid is never enforced.
- The bid-details dialog of the detail view is modelled, but nothing in the view ever selects a bid, so it never opens.
- The dashboard's sample auction lists, the home page, the rating display and the token-management dialog are static data or layout and are not modelled. Only the package ids that the token-management card sends are used.
- Dashboard.Page.PurchaseTokens: credits the corrected `Dashboard.CreditAmount`, not the page's table `Dashboard.PackageAmount`. For the ids "2" and "3" that the token-management card sends, the code as written adds 50, and the model adds 150 and 500. The two agree on "basic", "premium" and "enterprise". The as-written credit is `Dashboard.PackageAmount`, and the lemma logged under "## Findings" states the gap.
- String lengths: JavaScript's `length` and `substring` count UTF-16 code units, while the model counts characters. A character outside the Basic Multilingual Plane, such as an emoji, counts twice in the source and once in the model. This affects the schema minimums of `AuctionForm.Valid`, `BidForm.Valid` and `RatingForm.Valid`, the 60-unit cut of `AuctionCard.ShownDescription`, and the two-unit `ChatInterface.Initials`, which in the source can split an emoji in half.
- AuctionMonitor.Monitor.SubmitBid: the new bid's id renders the time in milliseconds as a natural number; `Date` objects are not modelled.

## Findings

| source | as written | input that shows it | evidently intended | confidence | as-written member | corrected member |
|---|---|---|---|---|---|---|
| src/pages/Dashboard.tsx:148-153 | the credit table is keyed by "basic", "premium", "enterprise", but the token-management card sends the package ids "1", "2", "3", so every purchase from it falls back to 50 tokens | buying Premium from the token card sends "2" and credits 50 instead of 150 | credit the purchased package's advertised token amount | high (not executed) | Dashboard.ManagementPurchasesCreditFifty | Dashboard.CreditAmount |
