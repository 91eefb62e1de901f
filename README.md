# Wild Wave admin front-end: a verified model

A Dafny model of the logic in the Wild Wave Safaris admin front-end, a React application. It covers the session store, the API client's request contract, and the in-memory record tables the pages update in place. It also covers the form defaults, add guards, counts and aggregates of the admin pages, the route gate, the sidebar helpers and the login flow.

The model follows the form of the code:

- **Imperative classes.** The store, the API client's token, the shared `db` arrays, the packages page, the login page, and the `editing`/`saving`/`loading`/`syncing` state of the promotions, contact settings and safari packages pages are classes. Their fields are updated by methods with `modifies` clauses.
- **Shared objects.** Local storage is one `Browser.LocalStorage` object shared by the store and the API client. Each JavaScript array of `db` is one `Db.Table` object, shared by `db`, its named exports and the packages page.
- **Pure pages.** Pages whose handlers only spread, `map`, `filter` and `||` are datatypes and functions, with lemmas relating them.

Every external effect is a parameter of the operation that uses it:

- the outcome of `fetch` and of the page-level API calls (success or failure);
- the answer to `confirm`;
- `Date.now()`;
- the ISO timestamp;
- the locale date formatter.

The JavaScript built-ins the code relies on are defined once, in the module `Js`, following the ECMAScript semantics: `||` on strings, `split` on one character, `join`, `trim` and `String(n)`. The JSON values, `JSON.stringify` and the reading back of the stored user are in the module `Json`.

Where a natural description of the application and the code differ, the model follows the code:

- **`login` is local.** The store's `login` checks one fixed pair of credentials and never calls the API client's `login`.
- **Hydration uses its own key.** `isAuthenticated` is read from its own storage key, not derived from the token.
- **`logout` keeps the token.** It removes only the `isAuthenticated` and `user` keys. The API client's token stays in memory and in storage, and the next request still carries it (`Session.LogoutKeepsToken`).
- **A body that is not JSON gives "Request failed".** For a non-ok response whose body cannot be read as JSON, the `catch` fallback yields the message "Request failed", not "HTTP <status>".
- **A `null` body fails differently.** A non-ok response whose body is JSON `null` fails with a property-of-null error, not with an HTTP message. A successful login whose body is `null` does the same.
- **The CSV export does no escaping.** Fields are written raw, not quoted as in section 2 of RFC 4180. A comma or newline inside a field shifts the cells or splits the record (`Bookings.RowRoundTrip`, `Bookings.LinesRoundTrip`, `Bookings.CommaInNameShiftsCells`).
- **Search is stored but never applied.** The export and the table always use the full list (`Bookings.SearchDoesNotFilter`).
- **Five navigation links have no route.** `/enquiries`, `/safari-packages`, `/blog`, `/contact-settings` and `/promotions` fall to the catch-all redirect to `/` (`Sidebar.NavigationRouting`).

## Model

| member | source | states |
|---|---|---|
| Store.AppStore.constructor | src/store/index.ts:14-18 | The store starts with dark mode and the collapsed sidebar off. It is authenticated exactly when the stored 'isAuthenticated' is "true". Its user is the stored user read back. |
| Store.HydrateStoredUser | src/store/index.ts:18 | The user text a successful login writes hydrates back to that same user. |
| Store.HydrateMissingUser | src/store/index.ts:18 | A missing, empty or "null" 'user' entry hydrates to no user. |
| Store.ParseSerializedUser | src/store/index.ts:29 | Reading the text `JSON.stringify({name, email})` writes gives back the same name and email, whatever characters they hold. |
| Json.StringifyPair | src/store/index.ts:29 | `JSON.stringify` of a two-member object of strings is the two quoted members, in order, between braces. |
| Json.UnquoteEscape | src/store/index.ts:18 | A string literal written by `JSON.stringify` reads back as the original text, leaving what follows it. |
| Store.AppStore.ToggleDarkMode | src/store/index.ts:19-23 | The theme is negated and the document's dark class is set to the new value. No other field changes. |
| Store.ToggleDarkModeTwice | src/store/index.ts:19-23 | Two theme toggles restore the theme, and the dark class follows it. |
| Store.AppStore.ToggleSidebar | src/store/index.ts:24 | The collapsed flag is negated and nothing else changes. |
| Store.AppStore.Login | src/store/index.ts:25-34 | The result is true exactly for the fixed credentials. On success the store is authenticated as "Admin User" with the given email, and storage gains 'isAuthenticated'="true" and the serialised user. On failure neither state nor storage changes. |
| Store.AppStore.Logout | src/store/index.ts:35-39 | The store is signed out with no user. Storage loses exactly the 'isAuthenticated' and 'user' keys. |
| Store.LogoutTwice | src/store/index.ts:35-39 | A second logout changes nothing more. The stored token and both preferences survive. |
| Store.ReloadAfterLogin | src/store/index.ts:14-31 | After a successful login, a store created afresh over the same storage is authenticated as that user. |
| Session.KeysDiffer | src/store/index.ts:35-39 | The two keys logout removes are not the token key. |
| Session.LogoutKeepsToken | src/store/index.ts:35-39 | After logout, these are unchanged: the client's token, the stored token, the bearer header of the next call, and the token a reloaded client reads. |
| Browser.LocalStorage.GetItem | src/lib/api.ts:3 | `getItem` gives the stored string exactly for a present key, and null otherwise. |
| Browser.LocalStorage.SetItem | src/lib/api.ts:8 | `setItem` maps the key to the value and leaves other keys alone. |
| Browser.LocalStorage.RemoveItem | src/lib/api.ts:10 | `removeItem` drops the key, and a missing key is no error. |
| Api.ApiClient.constructor | src/lib/api.ts:1-3 | The base URL is the environment's, else the default. The token starts as the stored 'authToken'. |
| Api.ApiClient.SetAuthToken | src/lib/api.ts:5-12 | The token in memory becomes the argument. Storage holds it under 'authToken' exactly when it is non-empty; otherwise the key is removed. |
| Api.BuildHeaders | src/lib/api.ts:15-22 | The key set is the caller's keys plus Content-Type, plus Authorization when a non-empty token is held. Content-Type is the caller's, else application/json. Authorization is "Bearer " + token when held, overriding the caller's. Other caller headers are kept. |
| Api.ApiClient.FetchApi | src/lib/api.ts:14-35 | The request URL is the base URL followed by the endpoint, with the merged headers. The call resolves to the interpreted response. |
| Api.ErrorMessageChoice | src/lib/api.ts:29-32 | A non-ok body that is not JSON gives "Request failed". A non-empty string message gives that message. A missing or falsy message gives "HTTP " + status. A JSON null body gives the property-of-null error, and every other body gives a request error. |
| Api.InterpretOk | src/lib/api.ts:29-34 | A call succeeds exactly on a status from 200 to 299 with a JSON body, and returns that body unchanged. |
| Api.ErrorExamples | src/lib/api.ts:29-32 | 404 with message "Not found" fails with it. 500 with an unreadable body fails with "Request failed". 500 with `{}` fails with "HTTP 500". |
| Api.ApiClient.Login | src/lib/api.ts:38-45 | The call POSTs the credentials to /auth/login. Only a successful, non-null response sets the token to its `token` member, which is stored, or removed when it is empty or missing. Every failure leaves token and storage unchanged. |
| Api.ApiClient.Call | src/lib/api.ts:48-118 | Each wrapper sends its table path and options with the current token, and passes the response back unmodified. |
| Api.PathShape | src/lib/api.ts:48-118 | Id-taking wrappers use their collection path + "/" + String(id). The others use the collection path alone. |
| Api.MethodAndBody | src/lib/api.ts:48-118 | No wrapper sets headers. Exactly the POST and PUT wrappers send a body. Only deletePackage uses DELETE. |
| Api.PathDeterminesId | src/lib/api.ts:57-99 | Two id-taking wrappers with the same path address the same collection and the same id. |
| Js.IntToStringInjective | src/lib/api.ts:58 | `String(n)` determines n. |
| Db.Database.constructor | src/lib/db.ts:1-98 | The stats are all zero. Bookings, packages, customers and payments start empty. Guides and vehicles hold the seeded records, each table a distinct array. |
| Db.InitialIds | src/lib/db.ts:26-93 | The seeded guides and vehicles carry ids 1, 2, 3 in order. |
| Db.FirstIndex | src/lib/db.ts:101 | The result is the index of the first record with the id, and -1 exactly when no record has it. |
| Db.FindFirst | src/lib/db.ts:101 | The linear search returns that first index, or -1. |
| Db.SetStatus | src/lib/db.ts:100-103 | The length is kept, and every field but the status of every booking is kept. The booking at the first index with the id gets the new status; every other booking keeps its status. |
| Db.UpdateBookingStatus | src/lib/db.ts:100-103 | The shared bookings array becomes `SetStatus` of its old contents. |
| Db.SetGuide | src/lib/db.ts:105-108 | The same as `SetStatus`, for the guide field only. |
| Db.AssignGuide | src/lib/db.ts:105-108 | The shared bookings array becomes `SetGuide` of its old contents. |
| Db.UpdatesKeepIds | src/lib/db.ts:100-108 | Neither update changes any booking's id. |
| Db.UnknownIdNoChange | src/lib/db.ts:100-108 | An id no booking carries leaves the array as it was. |
| Db.SetStatusIdempotent | src/lib/db.ts:100-103 | Setting the same status twice equals setting it once. |
| Db.StatusAndGuideCommute | src/lib/db.ts:100-108 | A status change and a guide assignment commute. |
| Db.Exports.constructor | src/lib/db.ts:110 | The exported customers, payments, guides and vehicles are the same array objects as db's. |
| Db.ChangeThroughExport | src/lib/db.ts:110 | A push through an exported name is seen through db, and the other way round. |
| Db.Table.Push | src/pages/Packages.tsx:15 | `push` appends the element at the end. |
| Db.Table.Put | src/pages/Packages.tsx:54-58 | Assigning fields of one element changes that element only. |
| Db.Table.RemoveAt | src/pages/Packages.tsx:67 | `splice(i, 1)` removes the element at i and keeps the order of the rest. |
| Packages.PackagesPage.constructor | src/pages/Packages.tsx:7-11 | The page works on db's own packages array. It starts with no editing id, the modal closed, an empty form and no preview. |
| Packages.NewRecord | src/pages/Packages.tsx:15-25 | The new record copies id, name, duration and price. It has bookings 0, revenue 0 and status 'active'. Category and image are the form's exactly when non-empty, else 'Luxury' and the default image. |
| Packages.PackagesPage.HandleAdd | src/pages/Packages.tsx:13-30 | When name and duration are non-empty and price is non-zero, the new record with id String(now) is appended, the form is reset, and the preview and modal are cleared. Otherwise nothing changes. |
| Packages.PackagesPage.HandleEdit | src/pages/Packages.tsx:32-36 | The page is editing the record's id, the form holds its five fields, and the preview is its image. |
| Packages.Apply | src/pages/Packages.tsx:53-59 | The saved record carries exactly the form's five fields, with id, bookings, revenue and status untouched. |
| Packages.ApplyOwnForm | src/pages/Packages.tsx:32-59 | Saving the form a record was loaded into gives the record back. |
| Packages.SaveForm | src/pages/Packages.tsx:51-59 | The length is kept and all records but the first with the id are unchanged. That record gets the form's fields and keeps its bookkeeping fields. |
| Packages.PackagesPage.HandleSave | src/pages/Packages.tsx:51-62 | The shared array becomes `SaveForm` of its old contents, and editing mode is left even for an unknown id. |
| Packages.SaveUnchangedForm | src/pages/Packages.tsx:51-59 | Saving the record's own form leaves the array as it was. |
| Packages.EditThenSave | src/pages/Packages.tsx:32-62 | Editing the first record with an id and saving it untouched leaves the shared array unchanged. |
| Packages.DeleteFirst | src/pages/Packages.tsx:64-68 | An absent id changes nothing. Otherwise exactly the first record with the id is removed: the length drops by one, earlier records stay, and later ones shift down in order. |
| Packages.PackagesPage.HandleDelete | src/pages/Packages.tsx:64-68 | A confirmed delete makes the shared array `DeleteFirst` of its old contents. An unconfirmed one changes nothing. |
| Packages.AddThenDeleteRestores | src/pages/Packages.tsx:13-68 | Deleting a record just appended under a fresh id gives back the original array. |
| Packages.AddThenDelete | src/pages/Packages.tsx:13-68 | On the page, add followed by a confirmed delete of String(now) restores the shared array. |
| AdminManagement.AddAdmin | src/pages/AdminManagement.tsx:27-42 | With name, email and password all non-empty, one admin is appended and the existing ones are unchanged. Its id is String(now), createdAt is the date part of the ISO text, status is active, lastLogin is 'Never', and the role is the chosen one. The form resets (role sub-admin) and the modal closes. Otherwise the state is unchanged. |
| AdminManagement.PasswordNotStored | src/pages/AdminManagement.tsx:29-37 | The list after adding does not depend on the password entered. |
| AdminManagement.UpdateStatus | src/pages/AdminManagement.tsx:44-46 | Length and order are kept and only the status field changes. Records with the id get the new status; the others keep theirs. |
| AdminManagement.OfferedRule | src/pages/AdminManagement.tsx:169-192 | Suspend and Block are offered exactly for active, non-super-admin records, and Activate exactly for inactive ones. An active super-admin has no action, and every offered action changes the status. |
| AdminManagement.CountsPartition | src/pages/AdminManagement.tsx:82-109 | The Active and Suspended/Blocked counts add up to the total. |
| AdminManagement.InitialCounts | src/pages/AdminManagement.tsx:15-20 | The seeded list has three active and one inactive admin. |
| AdminManagement.InitialsOfWords | src/pages/AdminManagement.tsx:137 | For non-empty words joined by single spaces, the initials are the words' first characters in order. |
| Js.SplitJoin | src/pages/AdminManagement.tsx:137 | Splitting separator-free parts joined with one character gives the parts back. |
| AdminManagement.InitialsBound | src/pages/AdminManagement.tsx:137 | There are never more initials than space-separated parts. |
| AdminManagement.InitialsExample | src/pages/AdminManagement.tsx:137 | "Super Admin" gives "SA". |
| Bookings.BookingsPage.constructor | src/pages/Bookings.tsx:7-8 | The list starts as db's bookings and the search text as empty. |
| Bookings.BookingsPage.HandleStatusChange | src/pages/Bookings.tsx:10-13 | The store's array becomes `SetStatus` of its old contents, and the page's list is a copy of it. |
| Bookings.Fields | src/pages/Bookings.tsx:17-27 | Each booking has nine cells, one per header. |
| Bookings.Lines | src/pages/Bookings.tsx:29-32 | There is one line more than there are bookings. The first is the header line, and line i+1 is booking i's cells joined with commas. |
| Bookings.BookingsPage.ExportToCsv | src/pages/Bookings.tsx:15-32 | The exported text is the lines joined with "\n". |
| Bookings.NumberCellsFree | src/pages/Bookings.tsx:22-23 | The people and amount cells contain no comma and no newline. |
| Bookings.RowRoundTrip | src/pages/Bookings.tsx:17-31 | A row splits back on commas into the booking's nine cells exactly when no cell contains a comma. |
| Bookings.LinesRoundTrip | src/pages/Bookings.tsx:29-32 | The export splits back on "\n" into its lines exactly when no cell contains a newline. |
| Bookings.LineCount | src/pages/Bookings.tsx:29-32 | Without newlines in cells, the export has the booking count plus one lines. |
| Bookings.CommaInNameShiftsCells | src/pages/Bookings.tsx:17-31 | A customer named "Doe, Jane" yields a row that does not read back as its cells. |
| Bookings.BookingsPage.SetSearch | src/pages/Bookings.tsx:8 | Typing a search changes only the search text. |
| Bookings.SearchDoesNotFilter | src/pages/Bookings.tsx:8-32 | The export is the same before and after a search. |
| Support.ToTicket | src/pages/Support.tsx:30-41 | The ticket has ticketId "ENQ-" + String(id). It copies customer, email and message. Phone, subject and status are the enquiry's when present and non-empty, else 'N/A', 'General Inquiry' and 'new'. The date is the formatted created_at, and replies is 0. |
| Support.Tickets | src/pages/Support.tsx:29-42 | There is one ticket per enquiry, in the same order. |
| Support.TicketIdReadsBack | src/pages/Support.tsx:32 | The ticket number starts with "ENQ-" and the rest reads back as the enquiry id. |
| Js.IntToStringRoundTrip | src/pages/Support.tsx:32 | `String(n)` is non-empty and reads back as n. |
| Support.TicketIdsDistinct | src/pages/Support.tsx:31-32 | Distinct enquiry ids give distinct ticket numbers. |
| Support.CountStatus | src/pages/Support.tsx:44-46 | A status count is at most the number of tickets. |
| Support.CountsBounded | src/pages/Support.tsx:44-46 | Open, pending and resolved together are at most the number of tickets. |
| Support.MissingStatusIsOpen | src/pages/Support.tsx:38-44 | Enquiries without a status are all counted as open. |
| Support.SendReply | src/pages/Support.tsx:48-53 | The reply is sent, raising "Reply sent to " + customer and clearing the box, exactly when it has a character that is not white space. Otherwise the box is unchanged. |
| Js.TrimEmptyIff | src/pages/Support.tsx:49 | `trim()` is empty exactly when every character is ECMAScript white space or a line terminator. |
| Support.LoadError | src/pages/Support.tsx:22-23 | The error is never empty. It is the fallback text exactly when the message is missing, empty or equal to it. |
| Payments.TotalRevenueAppend | src/pages/Payments.tsx:8 | The total of a concatenation is the sum of the totals, so the fold order does not matter. |
| Payments.TotalRevenueNonNegative | src/pages/Payments.tsx:8 | With no negative amount, the total is non-negative. |
| Payments.TotalRevenueBounds | src/pages/Payments.tsx:8 | With no negative amount, the total is at least each amount. |
| Payments.CountStatus | src/pages/Payments.tsx:9-10 | A status count is at most the number of payments. |
| Payments.CountsBounded | src/pages/Payments.tsx:9-10 | Completed plus pending is at most the number of payments. |
| Payments.BadgeAndIcon | src/pages/Payments.tsx:154-161 | The badge is green exactly for 'completed', orange exactly for 'pending', and red otherwise. At most one icon shows, and a red status other than 'failed' shows none. |
| Blog.AddPayload | src/pages/Blog.tsx:39-47 | Title, category, excerpt, content and published are copied. image_url and read_time are the form's when non-empty, else the default image and '5 min'. |
| Blog.HandleAdd | src/pages/Blog.tsx:36-56 | Create is called exactly when title and category are non-empty, with that payload. Success resets the form (published true) and clears the preview and modal. Otherwise the state is unchanged. |
| Blog.EditForm | src/pages/Blog.tsx:60-68 | Title, category and image_url are copied. Excerpt and content default to ''. read_time is the post's when non-empty, else '5 min'. Published holds unless the flag is exactly false. |
| Blog.HandleEdit | src/pages/Blog.tsx:58-70 | The editing id, form and preview are set from the post. |
| Blog.HandleSave | src/pages/Blog.tsx:85-102 | The update is sent for the id with the form as it stands. Success leaves editing mode; failure changes nothing. |
| Blog.EditThenSave | src/pages/Blog.tsx:58-102 | Saving an untouched post sends back its id, title, category and image, and a non-empty reading time. A present flag is preserved. |
| Blog.Toggled | src/pages/Blog.tsx:117 | Only `published` changes, to the negation of its truthiness. |
| Blog.ToggleTwice | src/pages/Blog.tsx:117 | Two toggles restore a post whose flag is present. |
| Blog.MissingFlagDisagrees | src/pages/Blog.tsx:162 | Draft shows exactly when the flag is not true. A post without a flag shows as Draft yet edits as published. |
| Blog.HandleDelete | src/pages/Blog.tsx:104-113 | The delete call is made, for that id, exactly when confirmed. |
| SafariPackages.HandleAdd | src/pages/SafariPackages.tsx:40-51 | Create is called with the form exactly when name and duration are non-empty and price is non-zero. Success resets the form and closes the modal. Otherwise the state is unchanged. |
| SafariPackages.EditForm | src/pages/SafariPackages.tsx:53-68 | Name, duration, price and image_url are copied. Tag, type, description, itinerary, includes and excludes default to ''. Published holds unless the flag is exactly false. |
| SafariPackages.DayCountSeparators | src/pages/SafariPackages.tsx:187 | A day count is shown exactly for a non-empty itinerary, and it is the number of '\|' plus one. |
| Js.SplitLength | src/pages/SafariPackages.tsx:187 | `split(c)` gives one more segment than there are occurrences of c. |
| SafariPackages.DayCountOfDays | src/pages/SafariPackages.tsx:187 | An itinerary written as days joined with '\|' counts exactly those days. |
| SafariPackages.ImagePanelRule | src/pages/SafariPackages.tsx:142 | The image panel is hidden exactly for the package being edited (a non-empty id), and always shown when nothing is edited. |
| SafariPackages.SyncState.constructor | src/pages/SafariPackages.tsx:10 | `syncing` starts false. |
| SafariPackages.SyncState.HandleSync | src/pages/SafariPackages.tsx:91-107 | `syncing` is true while the sync runs and false afterwards, whatever the outcome. The alert is the message for that outcome. |
| SafariPackages.SyncMessageKinds | src/pages/SafariPackages.tsx:95-103 | The alert starts with "Sync complete." exactly when the sync succeeded. |
| Promotions.PromotionsPage.constructor | src/pages/Promotions.tsx:7-10 | The page starts not editing, with the empty form: '' text, 'Book Now', '/contact' and active true. |
| Promotions.PromotionsPage.HandleSubmit | src/pages/Promotions.tsx:25-39 | When editing, update is called with the promotion's id and the form; otherwise create is called. Success resets the form and clears editing. Failure changes nothing. |
| Promotions.EditForm | src/pages/Promotions.tsx:41-51 | Title and active are copied verbatim. Description and discount_text default to ''. button_text and button_link are the promotion's when non-empty, else 'Book Now' and '/contact'. |
| Promotions.PromotionsPage.HandleEdit | src/pages/Promotions.tsx:41-51 | The page edits the promotion, with the form filled from it. |
| Promotions.EditStoredForm | src/pages/Promotions.tsx:41-51 | Editing a promotion saved from a form gives the form back exactly when both button texts are non-empty. |
| Promotions.EditStoredEmptyForm | src/pages/Promotions.tsx:41-50 | A promotion saved from the empty form edits as the empty form. |
| Promotions.PromotionsPage.Cancel | src/pages/Promotions.tsx:143-146 | Cancel clears editing and resets the form. |
| Promotions.EditThenCancel | src/pages/Promotions.tsx:143-146 | Edit followed by cancel returns to the initial state. |
| Promotions.EditThenSubmit | src/pages/Promotions.tsx:25-51 | Edit followed by submit updates that promotion's id with its defaulted form. |
| Promotions.SubmitLabel | src/pages/Promotions.tsx:138 | The button reads "Update Promotion" exactly when editing, and "Create Promotion" exactly when not. |
| Promotions.ActiveLabel | src/pages/Promotions.tsx:176 | The label reads 'Active' exactly when the flag is true, and 'Inactive' otherwise. |
| Promotions.HandleDelete | src/pages/Promotions.tsx:53-62 | The delete call is made, for that id, exactly when confirmed. |
| ContactSettings.ContactSettingsPage.constructor | src/pages/ContactSettings.tsx:6-14 | The settings start as five empty strings, loading true and saving false. |
| ContactSettings.Normalise | src/pages/ContactSettings.tsx:23-29 | Exactly the five members are kept, each '' when missing. |
| ContactSettings.LoadSaved | src/pages/ContactSettings.tsx:23-40 | Loading back the settings that were saved gives the same settings. |
| ContactSettings.LoadNothing | src/pages/ContactSettings.tsx:23-29 | An object without the five members loads as the empty settings. |
| ContactSettings.ContactSettingsPage.LoadSettings | src/pages/ContactSettings.tsx:20-35 | On success the settings become the normalised data; on failure they stay. Loading is false either way. |
| ContactSettings.OpenWithFailedLoad | src/pages/ContactSettings.tsx:6-35 | A failed first load leaves the empty defaults, with loading and saving false. |
| ContactSettings.ContactSettingsPage.HandleSave | src/pages/ContactSettings.tsx:37-48 | The current settings are sent and saving is true during the call. The alert is the success or the failure text, and saving is false afterwards. |
| ContactSettings.SaveThenReload | src/pages/ContactSettings.tsx:20-48 | Saving and then loading what was stored keeps the settings. |
| ContactSettings.PreviewValue | src/pages/ContactSettings.tsx:135-140 | A set value is shown as is, and an empty one as 'Not set'. |
| ContactSettings.Preview | src/pages/ContactSettings.tsx:135-140 | The preview has five lines, none empty. |
| ContactSettings.EmptyPreview | src/pages/ContactSettings.tsx:135-140 | Empty settings preview as five 'Not set' lines. |
| ContactSettings.PreviewShowsSetValues | src/pages/ContactSettings.tsx:135-140 | For values other than the text 'Not set', a line reads 'Not set' exactly when the value is empty. |
| App.ProtectedRoute | src/App.tsx:16-19 | The children render exactly when authenticated; otherwise the route redirects to /login. |
| App.Lookup | src/App.tsx:44-53 | A page is found exactly when some route has the path, and that route maps the path to it. |
| App.SignedOutRouting | src/App.tsx:24-33 | When signed out, the login page renders exactly at /login, and every other path redirects to /login. |
| App.SignedInRouting | src/App.tsx:44-54 | When signed in, a path renders exactly when it is one of the nine, and it renders that route's page. Every other path redirects to /, and the login page never renders. |
| App.RoutePathsDistinct | src/App.tsx:45-53 | The nine route paths are distinct. |
| App.LoginRedirectsHome | src/App.tsx:54 | When signed in, /login redirects to /. |
| App.OneRedirectAtMost | src/App.tsx:24-54 | Following a redirect always reaches a page. |
| App.MarginLeft | src/App.tsx:41 | The margin is 80 exactly when the sidebar is collapsed, and 280 exactly when it is not. |
| Sidebar.Truthy | src/components/Sidebar.tsx:117-119 | The kept arguments are all non-empty, and there are no more of them than arguments. |
| Sidebar.CnAllTruthy | src/components/Sidebar.tsx:117-119 | With every argument a non-empty string, `cn` joins them all with single spaces. |
| Sidebar.CnDropsFalsy | src/components/Sidebar.tsx:117-119 | A falsy argument anywhere changes nothing. |
| Sidebar.CnEmpty | src/components/Sidebar.tsx:117-119 | The result is empty exactly when no argument is truthy. |
| Sidebar.ProfileClassRule | src/components/Sidebar.tsx:87-90 | When collapsed the profile box gets " justify-center" added; when expanded it has the base class alone. |
| Sidebar.NavigationPathsDistinct | src/components/Sidebar.tsx:6-21 | The table has 14 entries with distinct paths. |
| Sidebar.AtMostOneActive | src/components/Sidebar.tsx:63-65 | At most one item is active for any pathname, and each item is active at its own path. |
| Sidebar.UnroutedNotListed | src/components/Sidebar.tsx:9-14 | None of the five unrouted paths is a route path. |
| Sidebar.RoutedListed | src/components/Sidebar.tsx:6-21 | Every other navigation path is a route path. |
| Sidebar.NavigationRouting | src/components/Sidebar.tsx:6-21 | When signed in, a link opens a page exactly when its path is not one of the five unrouted ones, and those redirect to /. |
| Sidebar.Width | src/components/Sidebar.tsx:30 | The width is 80 exactly when collapsed, and 280 exactly when expanded. |
| Sidebar.WidthMatchesMargin | src/components/Sidebar.tsx:30-79 | The sidebar is as wide as the content margin, and labels show exactly at width 280. |
| Sidebar.LogoutClick | src/components/Sidebar.tsx:97-103 | When confirmed: the store signs out, storage loses the two session keys, the location becomes /login, and that path renders the login page. When not confirmed, nothing changes. |
| Login.LoginPage.constructor | src/pages/Login.tsx:7-10 | The page starts with empty fields, no error and not loading. |
| Login.LoginPage.SetCredentials | src/pages/Login.tsx:55-69 | Typing sets the email and the password. |
| Login.LoginPage.HandleSubmit | src/pages/Login.tsx:14-31 | The error is cleared and loading set before the call. True navigates to /. False sets 'Invalid email or password'. A throw sets 'Login failed. Please try again.'. Loading is false after every outcome. |
| Login.Submit | src/pages/Login.tsx:11-31 | Against the store, the result is true exactly for the fixed credentials. Success navigates to /, where the dashboard renders. Failure shows the invalid-credentials error and leaves the store and storage as they were. |

## Left out

- I/O and the browser are parameters or left out:
  - `fetch` is an abstract outcome: a network error, or a status with a body that is or is not JSON.
  - The page-level API functions (`getPackagesAdmin`, `createBlog`, `updatePromotion`, `getContactSettings`, `syncDestinationImagesFromPackages` and the rest) are a success or failure flag, or an optional result. They are not defined in `src/lib/api.ts`, and `src/lib/utils` is not part of this model; formatted dates are passed through as strings.
  - `confirm`, `alert`, `Date.now()`, `new Date().toISOString()` and `toLocaleString` are parameters or returned values.
  - `document.classList` is a boolean field.
  - `window.location`, `Blob`, `URL.createObjectURL`, `window.open`/`print` and `FileReader` uploads are left out. The page's own location is a field.
- Reloading lists after a call (`loadBlogs`, `loadPackages`, `loadPromotions`, the Support page's `loadEnquiries` success path) is left out. It replaces the list with whatever the API returns.
- Async interleaving is not modelled: each handler is one sequential step.
- Strings are sequences of Unicode scalar values, not of UTF-16 code units as in JavaScript. Indexing, `length`, `split` and `trim` therefore differ for characters outside the Basic Multilingual Plane. For example, AdminManagement.Initials takes the whole first character of a name that starts with an emoji, where `n[0]` yields a lone surrogate.
- Numbers are integers:
  - prices, amounts and ratings (guide ratings are stored in tenths);
  - `String(n)` is the decimal form with a minus sign, so the exponent form of very large numbers and fractional numbers are not modelled.
- Api.ApiClient.Login modelling choices:
  - A `token` member that is not a string counts as absent.
  - A response body that is not an object yields no token.
- Store.ParseUser: `JSON.parse` of the stored user accepts exactly the text `JSON.stringify` writes. Other text (white space, reordered or extra members) reads as no user, where the browser would parse it or throw.
- App.Route matches paths by exact equality. React Router's case-insensitive matching and trailing-slash tolerance are not modelled.
- Records are values: aliasing between the arrays is modelled, but aliasing of individual record objects is not. For example, the Bookings page's initial `useState(db.recentBookings)` sees later in-place status changes without a copy.
- SafariPackages.ImagePanelShown compares ids as strings; the source may compare a numeric id with a string id.
- View-only files and the HTML of `exportToPDF` are left out:
  - Dashboard, StatCard, Header, Settings, Customers, GuidesVehicles and Enquiries;
  - the `revenueData`/`countryData` arrays that only the Dashboard reads.
- The Customer, Payment, Guide and Vehicle records are datatypes only; no core operation updates them.
