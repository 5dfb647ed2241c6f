# Temple waste collection app: a Dafny model of its page logic

The app connects temples, the NGOs that collect their waste, and
administrators. Almost every page is a form or table over a hosted
database. This project models the pieces of those pages that have rules of
their own and proves what the rules promise.

- **The points ledger of the admin "Daily Donations" page.**
  - One point is awarded per 5 kg of waste.
  - Every (temple, day) has exactly one log.
  - The temple's running `donation_points` counter is raised by each saved log.
  - Overwriting a day's log adds its points again and never subtracts the old ones. The model keeps this and proves how far the counter then drifts from the sum of the logs.
- **Role gates.**
  - The API wrapper `withRole` answers 401, 403 or passes the request on.
  - The guards of the admin home, NGO dashboard, temple dashboard and temple pages.
  - The login page's role-to-route choice and its bounded profile look-up loop.
- **Pickup requests.** Their status moves pending → accepted → picked up, or pending → rejected, through the buttons each card offers.
- **Storage paths.** The NGO logo path sanitiser and the temple image id cleaner and name slug.
- **The 20-reading window of the IoT feed hook, and the two in-memory API routes.**
  - The routes are the inventory and the waste log.
  - Each keeps an append-only array numbered 1, 2, …, and answers GET, POST or 405.
- **Local record updates.**
  - The donation history prepend and the two profile edit merges.
  - The progress bar clamp, the id badge and the `?? 0` defaults.

Each page with state is a class. The fields are the page's state cells and
the remote tables it writes; the methods are its handlers. Everything the
database, the storage service or the auth service returns is a parameter:
a found or missing row, an ok or failed write, an upload result, whether a
session exists. Time stamps are parameters too. Pure expressions of the
source are functions, and what they promise is stated in their contracts
and in lemmas.

One module per source file:

| module | file |
|---|---|
| `Common` | shared values and JavaScript primitives (`trim`, `\s`, `toLowerCase`, `Number`, `||` defaults) |
| `Ledger` | `pages/admin/donations.js` |
| `Login` | `pages/login.js` |
| `AuthMiddleware` | `src/middleware/authMiddleware.js` |
| `NgoAdmin` | `pages/admin/ngos.js` |
| `TempleAdmin` | `pages/admin/temples.js` |
| `TemplePage` | `pages/temple.js` |
| `NgoDashboard` | `pages/ngo/index.js` |
| `TempleDashboard` | `pages/temple/dashboard.js` |
| `AdminHome` | `pages/admin/index.js` |
| `IotData` | `src/hooks/useIoTData.js` |
| `ApiStore` | the store and handler shared by `pages/api/inventory.js` and `pages/api/waste.js` |
| `InventoryApi` | `pages/api/inventory.js` |
| `WasteApi` | `pages/api/waste.js` |

Four behaviours of the source are modelled as written:
- Sign-up sends a temple user to `/temple/index.js`, while login sends them to `/temple` (`Login.SignupAndLoginRoutes`).
- The points counter counts an overwritten log twice (`Ledger.OverwriteDoubleCounts`): points are added, never recomputed.
- The NGO dashboard's `mounted` flag is never cleared, so its guard always stores the profile it finds.
- A temple coordinate of 0 is falsy (`TempleAdmin.ZeroLatitudeLostOnEdit`). A typed "0" is stored as 0, but the card then hides its map button, and opening the row and saving it unchanged writes the coordinate back as null.

## Model

| member | source | states |
|---|---|---|
| Common.SetField | pages/temple/dashboard.js:101-105 | after `{ ...obj, [key]: v }` the key reads as `v` (an `undefined` value reads like an absent key); every other key reads as before |
| Common.NullIfEmpty | pages/admin/ngos.js:65-67 | `x \|\| null` is null exactly for the empty string and the string itself otherwise |
| Common.OrEmpty | pages/admin/ngos.js:103-105 | `x \|\| ""` on a nullable string: null reads as "", a value as itself |
| Common.OrZero | pages/temple.js:115-128 | `x ?? 0`: null reads as 0, a number as itself |
| Common.LowerChar | pages/login.js:46 | a capital becomes the lower-case letter 32 code points on; every other character, white space included, is kept |
| Common.Lower | pages/login.js:46 | `toLowerCase` keeps the length and lowers each character at its position |
| Common.LowerIdempotent | pages/login.js:46 | lower-casing twice is lower-casing once |
| Common.LowerMatchesWord | pages/login.js:46-49 | lower-casing gives a lower-case word exactly for its spellings in any mix of ASCII cases |
| Common.TrimStart | pages/admin/temples.js:58 | the result is a suffix of the input |
| Common.TrimStartDropsSpace | pages/admin/temples.js:58 | what is dropped is white space and the result does not start with white space |
| Common.TrimStartSkipsSpace | pages/admin/temples.js:58 | a run of white space before a non-space is removed exactly |
| Common.TrimEnd | pages/admin/ngos.js:64 | the result is a prefix of the input |
| Common.TrimEndDropsSpace | pages/admin/ngos.js:64 | what is dropped is white space and the result does not end with white space |
| Common.Trim | pages/admin/ngos.js:64 | `trim` never lengthens its input |
| Common.TrimStripsOuterSpace | pages/admin/ngos.js:64 | a trimmed name neither starts nor ends with white space |
| Common.TrimIsSlice | pages/admin/ngos.js:64 | a trimmed name is a contiguous slice of the original, starting where the leading white space ends |
| Common.TrimEmptyIffBlank | pages/admin/ngos.js:56 | the name guard fails exactly for a name made only of white space, including the empty name |
| Common.TrimIdempotent | pages/admin/ngos.js:64 | trimming twice is trimming once |
| Common.TrimUnspaced | pages/admin/temples.js:63-64 | text that neither starts nor ends with white space is its own trim |
| Common.FindEitherExact | pages/admin/temples.js:63-64 | the search for the `.` or the `e` of a literal stops at the first one |
| Common.DigitsAreNumbers | pages/admin/temples.js:63-64 | `Number` of a digit string is a number, zero exactly when every digit is 0 |
| Common.UnsignedDecimalClass | pages/admin/temples.js:63-64 | an unsigned decimal literal is a number, zero exactly when its mantissa digits are all 0 |
| Common.DecimalFractionClass | pages/admin/temples.js:63-64 | `12.5`, `.5`, `12.`, `0.0`: a decimal fraction is a number, zero exactly when every digit is 0 |
| Common.BlankIsZero | pages/admin/temples.js:63-64 | `Number` reads text made only of white space as 0 |
| Common.NonNumericIsNaN | pages/admin/temples.js:63-64 | text whose first visible character cannot start a numeric literal is NaN |
| Ledger.CalcPoints | pages/admin/donations.js:29-32 | the points are the floor of the total kg divided by 5 |
| Ledger.CalcPointsExamples | pages/admin/donations.js:29-32 | 0+0+0 kg gives 0 points, 10+15+6 gives 6 and 10+10+5 gives 5 |
| Ledger.CalcPointsMonotonic | pages/admin/donations.js:30-31 | more waste of any kind never gives fewer points |
| Ledger.NaNCountsAsZero | pages/admin/donations.js:30 | a field that is not a number counts as 0 kg |
| Ledger.Upsert | pages/admin/donations.js:44 | after the upsert the key finds the new log; other keys find what they found before; the rows with other keys are the same, in the same order; the table grows only for a new key; unique keys stay unique |
| Ledger.UniqueCount | pages/admin/donations.js:44 | under the unique constraint a key occurs once when present and not at all otherwise |
| Ledger.UpsertLeavesExactlyOne | pages/admin/donations.js:37-44 | after a successful upsert exactly one log has the (temple, day) key, and it is the payload |
| Ledger.UpsertTwiceKeepsSecond | pages/admin/donations.js:44 | saving one (temple, day) twice leaves one row holding the second log, and adds no row |
| Ledger.Award | pages/admin/donations.js:47-49 | the new points are the old ones (0 when null or unread) plus the log's points; other temples are unchanged; a failed write changes nothing |
| Ledger.AwardTwiceAddsBoth | pages/admin/donations.js:44-49 | two saves for one temple raise its points by p1 + p2, even for the same day |
| Ledger.SequentialAwardExample | pages/admin/donations.js:47-49 | awards of 6 and then 1 on a total of 0 give 7 |
| Ledger.UpsertSum | pages/admin/donations.js:44 | an upsert changes a temple's sum of log points by the new log's points minus those of the log it overwrote |
| Ledger.OverwriteDoubleCounts | pages/admin/donations.js:44-49 | when a day's log is re-saved, the counter ends up ahead of the sum of the logs by the old log's points |
| Ledger.EndToEndExample | pages/admin/donations.js:36-49 | 10 + 10 + 5 kg for temple "01" stores one log with 5 points and raises the temple's points by 5 |
| Ledger.DonationsPage.constructor | pages/admin/donations.js:11-16 | the page starts with a blank form over tables whose keys are unique |
| Ledger.DonationsPage.UpsertLog | pages/admin/donations.js:34-52 | an empty temple or day only alerts and writes nothing; a failed upsert alerts with its message and leaves the points and the form alone; a successful one upserts the log, awards its points and resets the form; keys stay unique throughout |
| Login.FirstWithRoleIsFirst | pages/login.js:22-29 | the retry result is the profile of the first look-up with a role, every earlier look-up has none; or it is null exactly when no look-up within the bound has one |
| Login.FetchProfileWithRetry | pages/login.js:22-29 | the loop makes at most `maxRetries` look-ups (none for 0) and returns the first profile with a role; when it returns null it has made all of them |
| Login.LoginRoute | pages/login.js:46-52 | a redirect happens exactly for admin, ngo and temple, to "/" + role |
| Login.SignupRoute | pages/login.js:93-95 | after sign-up admin and ngo go where login sends them, and every other role goes to "/temple/index.js" |
| Login.SignupAndLoginRoutes | pages/login.js:47-95 | the two handlers disagree for the temple role; an unknown role gets no redirect on login but "/temple/index.js" on sign-up |
| Login.LoginRouteIgnoresCase | pages/login.js:46-49 | login lands on "/admin", "/ngo" or "/temple" exactly when the stored role spells that role in any mix of ASCII cases |
| Login.ProfileRow | pages/login.js:75-81 | the inserted profile has the user's id, e-mail and lower-cased role; a blank name is stored as null |
| Login.AuthPage.constructor | pages/login.js:12-19 | the page starts idle, in the "ngo" role, with empty fields |
| Login.AuthPage.HandleLogin | pages/login.js:31-56 | a failed sign-in shows its error (or "Login failed"); a missing profile warns and does not redirect; a known role redirects to its page; any other role warns; loading ends in every case |
| Login.AuthPage.HandleSignup | pages/login.js:58-99 | a failed sign-up or insert shows its error and inserts or redirects nothing; an unconfirmed user gets the e-mail notice and nothing is inserted; otherwise the profile row is inserted, and then either a redirect by role or the "slow" warning |
| AuthMiddleware.WithRole | src/middleware/authMiddleware.js:3-18 | 401 exactly without a session; 403 exactly when the effective role is not allowed; otherwise the handler runs, on the request with `req.user` set to the session's user |
| AuthMiddleware.DefaultForbidsAll | src/middleware/authMiddleware.js:3-13 | with the default empty list every signed-in request gets 403 |
| AuthMiddleware.MissingRoleIsViewer | src/middleware/authMiddleware.js:9-13 | a user without a role passes exactly when 'viewer' is allowed |
| AuthMiddleware.HandlerSeesSessionUser | src/middleware/authMiddleware.js:15-16 | the handler sees the request it was given, with only `req.user` set |
| NgoAdmin.SanitizePathSegment | pages/admin/ngos.js:16-18 | the sanitised segment has the input's length |
| NgoAdmin.SanitizeEachChar | pages/admin/ngos.js:17 | an allowed character of either case is kept at its position, and every other character becomes '_' |
| NgoAdmin.SanitizeIsSafe | pages/admin/ngos.js:17 | every character of the result is in [A-Za-z0-9_.-] |
| NgoAdmin.SanitizeKeepsSafe | pages/admin/ngos.js:17 | a segment of allowed characters is unchanged |
| NgoAdmin.SanitizeIdempotent | pages/admin/ngos.js:17 | sanitising twice is sanitising once |
| NgoAdmin.LogoPathShape | pages/admin/ngos.js:43-44 | the logo path is the sanitised folder (the name, or "ngo"), '/', the stamp, '-' and the sanitised file name; when the stamp holds no '/', the folder separator is the only '/' |
| NgoAdmin.SlashOnlyAfterFolder | pages/admin/ngos.js:43-44 | when neither segment nor the stamp holds a '/', the folder separator is the path's only '/' |
| NgoAdmin.PayloadOf | pages/admin/ngos.js:63-69 | the name is trimmed; contact, logo and temple are null exactly when empty and kept otherwise; `created_at` is the given time |
| NgoAdmin.UpdateById | pages/admin/ngos.js:71-73 | every row with the edited id takes the payload's columns; the others are unchanged |
| NgoAdmin.DeleteById | pages/admin/ngos.js:93 | the rows with the id go, every other row stays, and nothing changes when no row has the id |
| NgoAdmin.DeleteIdempotent | pages/admin/ngos.js:93 | deleting twice is deleting once |
| NgoAdmin.EditWithoutFileClearsLogo | pages/admin/ngos.js:42-73 | editing a row and saving without a new file writes a null logo |
| NgoAdmin.NgoManager.constructor | pages/admin/ngos.js:22-28 | the page starts loading, with a blank form and nothing being edited |
| NgoAdmin.NgoManager.UploadLogo | pages/admin/ngos.js:41-52 | no file gives "" and no upload; otherwise the upload goes to the logo path, and the public URL comes back, or "" after an error notice |
| NgoAdmin.NgoManager.HandleAddNgo | pages/admin/ngos.js:54-88 | a blank name only warns; otherwise the save runs with the trimmed, null-normalised payload: on failure the error is shown and the form and edit state are kept; on success the edited row is updated or a new one added, the notice says which, the form is reset and editing ends; loading ends |
| NgoAdmin.NgoManager.Save | pages/admin/ngos.js:70-86 | a failed write only shows the error; a successful one updates the edited row or appends, then resets the form and ends editing |
| NgoAdmin.NgoManager.HandleDelete | pages/admin/ngos.js:90-98 | an unconfirmed delete changes nothing; a failed one shows the error; a successful one removes the row and says "Deleted" |
| NgoAdmin.NgoManager.SetEditValues | pages/admin/ngos.js:100-106 | edit mode for the row's id, with missing fields read as "" |
| TempleAdmin.CleanId | pages/admin/temples.js:47 | the cleaned id is no longer than the input and holds only [A-Za-z0-9_-] |
| TempleAdmin.CleanIdConcat | pages/admin/temples.js:47 | cleaning works character by character: cleaning a concatenation concatenates the cleaned parts |
| TempleAdmin.CleanIdOneChar | pages/admin/temples.js:47 | one character is kept when allowed and deleted otherwise |
| TempleAdmin.CleanIdKeepsClean | pages/admin/temples.js:47 | an id of allowed characters is left unchanged |
| TempleAdmin.CleanIdIdempotent | pages/admin/temples.js:47 | cleaning twice is cleaning once |
| TempleAdmin.CleanIdCounts | pages/admin/temples.js:47 | each allowed character occurs as often as in the input, and no other character occurs |
| TempleAdmin.CollapseSpaces | pages/admin/temples.js:58 | `replace(/\s+/g, "-")` leaves no white space and never lengthens |
| TempleAdmin.CollapseKeepsWordChars | pages/admin/temples.js:58 | text without white space is unchanged |
| TempleAdmin.Slug | pages/admin/temples.js:58 | the fallback id has neither white space nor capitals |
| TempleAdmin.CollapseWord | pages/admin/temples.js:58 | a word without white space passes through in front of the rest |
| TempleAdmin.CollapseRun | pages/admin/temples.js:58 | a whole run of white space becomes a single '-' |
| TempleAdmin.FolderId | pages/admin/temples.js:58 | the image folder is the unique id, or the name's slug when the id is empty |
| TempleAdmin.WithText | pages/admin/temples.js:183-193 | typing into a field changes that field only, a coordinate becoming typed text |
| TempleAdmin.ImagePath | pages/admin/temples.js:47-48 | the image path is the cleaned id, '/', the stamp, '-' and the file name unsanitised |
| TempleAdmin.Coordinate | pages/admin/temples.js:63-64 | typed text is stored as null exactly when it is empty, NaN or infinite, and otherwise as its trimmed text denoting the same number; a number loaded by `openEdit` is written back exactly when it is non-zero, and as null otherwise |
| TempleAdmin.StoredTextClass | pages/admin/temples.js:63-64 | the stored text of a typed coordinate denotes the number that was typed |
| TempleAdmin.PayloadOf | pages/admin/temples.js:59-67 | the payload keeps the form's text fields and flag, nulls empty coordinates, and carries the image URL |
| TempleAdmin.UpdateByCode | pages/admin/temples.js:69-71 | every row with the edited unique id takes the written columns and keeps its donation columns; the others are unchanged |
| TempleAdmin.DeleteByCode | pages/admin/temples.js:85 | the rows with the id go, every other row stays, and nothing changes when no row has the id |
| TempleAdmin.DeleteByCodeIdempotent | pages/admin/temples.js:85 | deleting twice is deleting once |
| TempleAdmin.SaveKeepsDonations | pages/admin/temples.js:69-71 | editing a temple keeps its donation percentage and points |
| TempleAdmin.MapPreview | pages/admin/temples.js:100-102 | the OpenStreetMap link is the prefix, the latitude, "&mlon=", the longitude, "#map=18/", the latitude, "/" and the longitude, each at its position |
| TempleAdmin.MapLink | pages/admin/temples.js:167-171 | the map button is shown exactly when both coordinates are truthy numbers (not null, zero or NaN), and links to their preview |
| TempleAdmin.CardImage | pages/admin/temples.js:159 | the card shows the stored image, or the placeholder when there is none |
| TempleAdmin.FormOf | pages/admin/temples.js:95-99 | opening a row copies its columns into the form, the coordinates as the loaded numbers or nulls |
| TempleAdmin.EditRoundTrip | pages/admin/temples.js:59-99 | opening a row whose coordinates are null or non-zero and saving it unchanged without a file writes back the same row |
| TempleAdmin.ZeroLatitudeLostOnEdit | pages/admin/temples.js:63-99 | a typed "0" is stored as 0, but a latitude of 0 hides the map button and comes back as null from an unchanged edit |
| TempleAdmin.ZeroTextIsZero | pages/admin/temples.js:63-64 | the text "0" is the number 0 and is stored as typed |
| TempleAdmin.NonNumericCoordinateIsNull | pages/admin/temples.js:63-64 | text starting with a letter other than `I` becomes NaN and is stored as null |
| TempleAdmin.FailedUploadClearsImage | pages/admin/temples.js:45-71 | a failed upload still saves, with the image column emptied |
| TempleAdmin.TempleManager.constructor | pages/admin/temples.js:17-30 | the page starts with the dialog closed, a blank form and no edited id |
| TempleAdmin.TempleManager.UploadImage | pages/admin/temples.js:45-53 | no file keeps the form's image; otherwise the upload goes to the cleaned-id path, and the URL comes back, or "" after the alert |
| TempleAdmin.TempleManager.HandleSave | pages/admin/temples.js:55-81 | a database error alerts and keeps the dialog and the form; success updates the edited rows or inserts one, resets the form and closes the dialog; the edited id is kept either way |
| TempleAdmin.TempleManager.Save | pages/admin/temples.js:68-81 | update for a truthy edited id, insert otherwise; on error only the alert |
| TempleAdmin.TempleManager.HandleDelete | pages/admin/temples.js:83-88 | unconfirmed: nothing; failed: an alert with the error; otherwise the rows with the id are removed |
| TempleAdmin.TempleManager.OpenCreate | pages/admin/temples.js:90-94 | add mode: no edited id, a blank form, the dialog open |
| TempleAdmin.TempleManager.OpenEdit | pages/admin/temples.js:95-99 | edit mode for the row's unique id, with its values in the form |
| TempleAdmin.TempleManager.ChangeText | pages/admin/temples.js:183-193 | a text field's change handler puts the typed text in the form |
| TemplePage.View | pages/temple.js:77-80 | loading first, then the error, then the dashboard exactly when allowed and a temple was found |
| TemplePage.ProgressWidth | pages/temple.js:61 | the width is within [0, 100], and in-range values are unchanged |
| TemplePage.ProgressWidthIdempotentMonotonic | pages/temple.js:61 | clamping twice is clamping once, and a larger value never gives a narrower bar |
| TemplePage.Repeat | pages/temple.js:106 | k copies of the pad character |
| TemplePage.PadStart | pages/temple.js:106 | `padStart` has the larger of the two lengths, ends with the input and is padded in front |
| TemplePage.Badge | pages/temple.js:106 | a falsy id gives ""; otherwise "^" and the id padded to two characters |
| TemplePage.BadgeCases | pages/temple.js:106 | a one-character id gains a leading '0'; a longer id is shown as it is |
| TemplePage.PctShown | pages/temple.js:115 | a null donation percentage shows as 0 |
| TemplePage.PointsShown | pages/temple.js:128 | null donation points show as 0 |
| TemplePage.TempleDashboard.constructor | pages/temple.js:6-10 | the page starts loading, not allowed, with no error |
| TemplePage.TempleDashboard.Load | pages/temple.js:13-54 | no user: redirect to "/"; no profile: the profile error; another role: redirect to "/"; role 'temple': allowed and the profile stored, then the linked temple or the "not linked" error |
| TemplePage.Visit | pages/temple.js:13-80 | the redirect to "/" happens exactly for no user or a non-temple role, and leaves the page loading; the profile error shows exactly when the profile is missing; the dashboard shows exactly for a temple user whose linked temple exists, and shows that temple |
| NgoDashboard.SetStatus | pages/ngo/index.js:65-76 | only the requests with the id get the new status; the length and the other requests are unchanged |
| NgoDashboard.SetStatusOnlyTouchesId | pages/ngo/index.js:66-74 | an unknown id leaves the list unchanged; a matching request changes its status and nothing else |
| NgoDashboard.Offered | pages/ngo/index.js:179-193 | accept and reject are offered exactly while pending, mark-picked-up exactly once accepted |
| NgoDashboard.OfferedMovesForward | pages/ngo/index.js:179-193 | every offered button moves the request forward: pending to accepted or rejected, accepted to picked up |
| NgoDashboard.ShownRunLength | pages/ngo/index.js:179-193 | through the buttons a request takes at most two steps from pending and none once picked up or rejected |
| NgoDashboard.MergeProfile | pages/ngo/index.js:86 | saving overwrites `vehicle` and `certifications` and leaves every other field |
| NgoDashboard.FormFrom | pages/ngo/index.js:79-82 | the edit form copies the two fields, "" when missing |
| NgoDashboard.EditWithoutTyping | pages/ngo/index.js:78-89 | editing without typing leaves a profile with both fields as it was; a missing field comes back as "" |
| NgoDashboard.NgoDashboardPage.constructor | pages/ngo/index.js:15-56 | the page starts loading, with the demo requests and the listener subscribed |
| NgoDashboard.NgoDashboardPage.Guard | pages/ngo/index.js:25-32 | no session, no profile or a role other than 'ngo' redirects to "/login"; otherwise the profile is stored and loading ends |
| NgoDashboard.NgoDashboardPage.AuthStateChanged | pages/ngo/index.js:34-36 | losing the session while subscribed redirects to "/login" |
| NgoDashboard.NgoDashboardPage.Unmount | pages/ngo/index.js:37 | the cleanup unsubscribes the listener |
| NgoDashboard.NgoDashboardPage.AcceptPickup | pages/ngo/index.js:65-68 | status "accepted" for the id, with its notice |
| NgoDashboard.NgoDashboardPage.MarkPickedUp | pages/ngo/index.js:69-72 | status "pickedup" for the id, with its notice |
| NgoDashboard.NgoDashboardPage.RejectPickup | pages/ngo/index.js:73-76 | status "rejected" for the id, with its warning |
| NgoDashboard.NgoDashboardPage.Click | pages/ngo/index.js:179-187 | a click on a shown button runs its handler, and the card's status moves strictly forward |
| NgoDashboard.NgoDashboardPage.StartProfileEdit | pages/ngo/index.js:78-84 | the form gets the profile's values and edit mode starts |
| NgoDashboard.NgoDashboardPage.SaveProfileEdit | pages/ngo/index.js:85-89 | the profile is merged with the form, edit mode ends and the notice is shown |
| TempleDashboard.ChangeField | pages/temple/dashboard.js:68-71 | the input's named field takes the value and the others are kept |
| TempleDashboard.Submitted | pages/temple/dashboard.js:76-84 | the new entry is pending, worth 2 points and carries the form's type and quantity |
| TempleDashboard.Prepend | pages/temple/dashboard.js:76-86 | the new entry comes first, the former history follows in order, and the length grows by one |
| TempleDashboard.PrependTwice | pages/temple/dashboard.js:76-86 | consecutive submissions are listed newest first |
| TempleDashboard.FormFrom | pages/temple/dashboard.js:91-96 | the edit form copies the name and phone and clears the password |
| TempleDashboard.SaveProfile | pages/temple/dashboard.js:100-105 | saving changes only `temple_name` and `phone` |
| TempleDashboard.EditWithoutTyping | pages/temple/dashboard.js:91-105 | editing without typing leaves every field as it read before |
| TempleDashboard.TempleDashboardPage.constructor | pages/temple/dashboard.js:21-59 | the page starts loading, with the demo history and a pending blank donation form |
| TempleDashboard.TempleDashboardPage.Guard | pages/temple/dashboard.js:37-53 | no session, no profile or a role other than 'temple' redirects to "/login"; otherwise the profile is stored and loading ends |
| TempleDashboard.TempleDashboardPage.HandleDonationChange | pages/temple/dashboard.js:68-71 | the typed value goes to the named field |
| TempleDashboard.TempleDashboardPage.HandleSubmitDonation | pages/temple/dashboard.js:73-89 | the notice is shown, the entry is prepended and the form is cleared |
| TempleDashboard.TempleDashboardPage.StartProfileEdit | pages/temple/dashboard.js:91-98 | the form gets the profile's values and edit mode starts |
| TempleDashboard.TempleDashboardPage.SaveProfileEdit | pages/temple/dashboard.js:100-108 | name and phone are saved locally, the notice is shown and edit mode ends |
| AdminHome.AdminHomePage.constructor | pages/admin/index.js:44-47 | the page starts loading, mounted and subscribed |
| AdminHome.AdminHomePage.GuardResolved | pages/admin/index.js:48-54 | no session, no profile or a role other than 'admin' redirects to "/login"; an admin ends loading only while the page is mounted |
| AdminHome.AdminHomePage.AuthStateChanged | pages/admin/index.js:56-58 | losing the session while subscribed redirects to "/login" |
| AdminHome.AdminHomePage.Unmount | pages/admin/index.js:59 | the cleanup clears `mounted` and unsubscribes |
| AdminHome.AdminHomePage.Logout | pages/admin/index.js:62-65 | logging out goes to "/login" |
| AdminHome.Visit | pages/admin/index.js:15-130 | the four tiles (temples, NGOs, donations, inventory, in that order) show exactly for an admin whose page is still mounted; everyone else is sent to "/login" and sees none |
| AdminHome.SessionLost | pages/admin/index.js:48-58 | once the session is lost the page is sent to "/login", whatever the guard finds later |
| IotData.LastN | src/hooks/useIoTData.js:19 | the last n elements, in order |
| IotData.Push | src/hooks/useIoTData.js:17-20 | the buffer grows by one below 20 and stays at 20 after; below 20 it is `prev + [data]`, otherwise the last 20 of it; the newest reading is last |
| IotData.PushIsLastN | src/hooks/useIoTData.js:18-19 | the reducer keeps the last 20 of the appended buffer |
| IotData.PushKeepsWindow | src/hooks/useIoTData.js:18-19 | a buffer within the window stays within it |
| IotData.OnMessage | src/hooks/useIoTData.js:14-24 | an unparsable message leaves the buffer unchanged; a parsed one is pushed |
| IotData.Parsed | src/hooks/useIoTData.js:16-21 | the parsed readings are no more than the messages |
| IotData.FeedIsLastWindow | src/hooks/useIoTData.js:14-24 | after any run of messages the buffer is the last 20 of the old buffer followed by every parsed reading, in arrival order |
| IotData.OneMessage | src/hooks/useIoTData.js:14-24 | one step of that run: the first message, then the window of the rest |
| IotData.OneReading | src/hooks/useIoTData.js:17-20 | one parsed reading followed by the rest |
| ApiStore.NotAllowedText | pages/api/inventory.js:17 | the 405 body is "Method " + verb + " Not Allowed" |
| ApiStore.NewEntry | pages/api/inventory.js:12 | the new entry's id is length + 1 and it carries the request's time stamp, overriding any id or stamp in the body; every other body field is kept |
| ApiStore.IdsInOrderDistinct | pages/api/inventory.js:3-12 | entries numbered 1, 2, … have distinct ids |
| ApiStore.PostKeepsOrder | pages/api/inventory.js:12-13 | appending the POSTed entry keeps the numbering, whatever id the body carried |
| ApiStore.Store.constructor | pages/api/inventory.js:3-6 | the store starts with its seed entries |
| ApiStore.Store.Handle | pages/api/inventory.js:8-19 | GET answers 200 with the store and changes nothing; POST appends exactly one entry with the next id and answers 201 with it; any other method answers 405 with Allow [GET, POST] and changes nothing; the numbering is kept |
| ApiStore.PostThenGet | pages/api/waste.js:6-12 | a POST then a GET: 201 with the next id, then a listing of the seed followed by the new entry, all ids distinct |
| InventoryApi.Seed | pages/api/inventory.js:3-6 | the inventory starts with 'Flower Waste' 50 and 'Organic Ash' 30, numbered 1 and 2 |
| InventoryApi.Load | pages/api/inventory.js:3-6 | the loaded route holds the seed, stamps under `lastUpdated` and is numbered in order |
| WasteApi.Seed | pages/api/waste.js:1-4 | the waste log starts with 'Flower' 100 and 'Garland' 50, numbered 1 and 2 |
| WasteApi.Load | pages/api/waste.js:1-4 | the loaded route holds the seed, stamps under `collectedDate` and is numbered in order |

## Left out

- Database, storage and auth calls: they are foreign services. Their results are parameters; the query language, ordering, limits and row-level security are not modelled.
- The re-fetches after a save or delete (`loadAll`, `fetchTemples`, `load`): the table field already holds what the write produced.
- Concurrency: the read-then-write of `donation_points` can lose an update when two saves race. The model is sequential only.
- Wall-clock values: `Date.now()`, `new Date()` and the retry delay. The time stamps are parameters, and the delay is not modelled.
- Floating-point numbers:
  - kg amounts are integers or NaN;
  - a coordinate is kept as the text of its number (see TempleAdmin.Coordinate below);
  - donation percentages are integers;
  - JSON quantities in the API routes are text.
- Unicode case mapping: `toLowerCase` lowers ASCII capitals only.
- UTF-16: strings are sequences of Unicode code points, whereas JavaScript's `length`, `padStart` and regular expressions without the `u` flag count UTF-16 code units. A character outside the Basic Multilingual Plane is one position in the model and two in JavaScript. So NgoAdmin.SanitizePathSegment turns an emoji into one `_` where JavaScript writes two, and TemplePage.PadStart pads a one-character id that JavaScript does not pad because it counts two units.
- The WebSocket lifecycle of the IoT hook (open, error, close, cleanup), and the logging.
- Styling, JSX layout and navigation buttons; the sign-out buttons of the two dashboards.
- The demo data for assigned temples and the NGO card on the two dashboards: it is display-only.
- The preview URL of the image, the file input reset, `window.scrollTo`, and the donation photo input.
- HTML `required` attributes on the forms.
- A null `form.name` in the temples page, which would throw: forms here always hold strings.
- The extra columns `setForm(t)` copies into the temple form: only the edited columns are written back.
- sanitizing a null or undefined segment: segments are always strings here, and the empty string sanitises to "".
- Common.Trim: its own contract only bounds the length; what trimming removes is stated by TrimStripsOuterSpace, TrimIsSlice and TrimEmptyIffBlank.
- Common.TrimStart: its own contract only says the result is a suffix; TrimStartDropsSpace states what is dropped.
- Common.TrimEnd: its own contract only says the result is a prefix; TrimEndDropsSpace states what is dropped.
- NgoAdmin.SanitizePathSegment: its own contract only fixes the length; SanitizeEachChar states the character rule.
- NgoAdmin.DeleteById: its contract states which rows remain, not that they keep their relative order.
- TempleAdmin.DeleteByCode: its contract states which rows remain, not that they keep their relative order.
- TempleAdmin.Coordinate: a typed coordinate is stored as its trimmed text, not as JavaScript's shortest rendering of the number (`12.50` is shown as `12.5`, `0x1A` as `26`). Which texts are zero, NaN or infinite follows the numeric-literal grammar. Literals that overflow double precision to infinity, or underflow it to 0, are classified by their digits.
- TempleAdmin.MapLink: when a coordinate is 0, React renders the stray `0` of `t.lat && t.lng`; only the absence of the button is modelled.
- NgoAdmin.LogoPath: it has no contract of its own; LogoPathShape states its shape.
