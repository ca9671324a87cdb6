# Kaam-Done site logic in Dafny

This project models the logic in the Kaam-Done marketing site that is more than markup:

- **The lead and record forms.** These are the "Start Your Project" enquiry dialog, the "Join the Revolution" crew application, the "Share Your Story" testimonial dialog and the admin form that adds portfolio projects. Each form is a class that holds its field record and its `isSubmitting` / `loading` / `uploading` / `open` flags. Each handler is a method proved against a contract that states the whole new state.
- **The list compositions.** These are the portfolio grid (built-in projects followed by stored ones, filtered by category), the testimonials marquee (stored entries ahead of the six built-ins, a fallback gradient, the list tripled) and the workflow page's duplicate-free `visiblePhases` list with its two-digit step labels.
- **The footer.** Its quick-link anchors are built from the labels, and its call-to-action block is hidden on the workflow page.

The document store, the file storage and Google sign-in are not modelled. Each call is replaced by the value it settles with:

- `Backend.Outcome` is `Ok` or `Err(ServiceError(code, message))`.
- `AddPortfolioForm.Upload` is the upload's result.
- `TestimonialDialog.SignIn` is the popup's result.
- A store snapshot is a given sequence of documents in the store's order.

A JavaScript field that is missing or `undefined` is the empty string, which is how the source's truthiness tests treat it. `Math.random()` is a parameter `roll` in `[0, 1)`.

While a write is pending, a handler's flags are recorded in a ghost out-parameter (`submittingDuringWrite`, `loadingDuringWrite`). This is how the contracts state that a flag is raised during the write and cleared afterwards.

Files, one module each:

- `Backend.dfy`: the outcome types.
- `Phone.dfy`: the phone sanitiser both lead forms share.
- `ProjectFormDialog.dfy`, `JoinCrewSection.dfy`, `PortfolioSection.dfy`, `TestimonialsSection.dfy`, `TestimonialDialog.dfy`, `AddPortfolioForm.dfy`, `Workflow.dfy` and `Footer.dfy`: one module per component.

## Model

| member | source | states |
|---|---|---|
| Phone.DigitsOnly | src/components/ProjectFormDialog.tsx:78 | the stripped phone holds only the characters '0'..'9' and is no longer than the input |
| Phone.Sanitise | src/components/ProjectFormDialog.tsx:78-82 | an edit is accepted exactly when at most ten digits remain, and what is accepted is digits only and at most ten long |
| Phone.DigitsOnlyAppend | src/components/JoinCrewSection.tsx:44-46 | stripping distributes over concatenation, so the digits keep their relative order |
| Phone.DigitsOnlyCounts | src/components/JoinCrewSection.tsx:44-46 | every digit occurs in the result as often as in the input, and every other character not at all |
| Phone.DigitsOnlyOfDigits | src/components/ProjectFormDialog.tsx:78 | a string of digits is left unchanged |
| Phone.DigitsOnlyIdempotent | src/components/ProjectFormDialog.tsx:78 | stripping twice is the same as stripping once |
| Phone.SanitiseStored | src/components/ProjectFormDialog.tsx:78-80 | a phone already stored passes the sanitiser unchanged |
| ProjectFormDialog.Put | src/components/ProjectFormDialog.tsx:84 | the named field gets the value and the other five fields are unchanged |
| ProjectFormDialog.Edit | src/components/ProjectFormDialog.tsx:75-85 | a non-phone edit stores the raw value. A phone edit with more than ten digits leaves the whole form unchanged, otherwise it stores the digits. The other fields are unchanged, and a well-formed phone stays well-formed |
| ProjectFormDialog.Submittable | src/components/ProjectFormDialog.tsx:140-240 | the browser's checks before submitting: name of at least 2 characters; email, phone, project type and message present; phone of exactly 10; message of at least 10 |
| ProjectFormDialog.SubmittablePhone | src/components/ProjectFormDialog.tsx:183-184 | a form the browser lets through carries exactly ten digits and is not the empty form |
| ProjectFormDialog.PhoneEditIdempotent | src/components/ProjectFormDialog.tsx:76-82 | feeding an accepted phone back through the handler changes nothing |
| ProjectFormDialog.Dialog.constructor | src/components/ProjectFormDialog.tsx:28-37 | closed, not submitting, all six fields empty |
| ProjectFormDialog.Dialog.SetOpen | src/components/ProjectFormDialog.tsx:88 | the open flag follows the dialog's open/close events |
| ProjectFormDialog.Dialog.HandleChange | src/components/ProjectFormDialog.tsx:75-85 | the form becomes `Edit` of the old form, and the phone stays digits only and at most ten long |
| ProjectFormDialog.Dialog.HandleSubmit | src/components/ProjectFormDialog.tsx:39-73 | writes the form as it stood and is submitting while the write is pending. On success the dialog is closed, the form emptied and no error shown. On failure the open state and the form are kept and the error text is shown. Submitting is off in both cases |
| JoinCrewSection.Put | src/components/JoinCrewSection.tsx:53 | the field named by the input gets the value and the others are unchanged |
| JoinCrewSection.Edit | src/components/JoinCrewSection.tsx:41-54 | the phone rule as in the enquiry dialog and the raw value for any other input. The other fields are unchanged, and the phone stays well-formed while the role stays one of the select's values |
| JoinCrewSection.Submittable | src/components/JoinCrewSection.tsx:147-226 | the browser's checks before submitting: name, email, role and message present; phone of exactly 10 characters |
| JoinCrewSection.SubmittableRole | src/components/JoinCrewSection.tsx:200-211 | a consistent application the browser lets through names one of the nine listed roles and a ten-digit phone |
| JoinCrewSection.Section.constructor | src/components/JoinCrewSection.tsx:12-20 | all six fields empty, not submitting |
| JoinCrewSection.Section.HandleChange | src/components/JoinCrewSection.tsx:41-54 | the application becomes `Edit` of the old one and stays consistent |
| JoinCrewSection.Section.HandleSubmit | src/components/JoinCrewSection.tsx:56-89 | writes the application as it stood and is submitting while the write is pending. On success all six fields are emptied. On failure they are kept and the error text is shown. Submitting is off in both cases |
| PortfolioSection.AllProjects | src/components/PortfolioSection.tsx:109 | the eight built-in projects in order, then the store's projects in snapshot order |
| PortfolioSection.InCategory | src/components/PortfolioSection.tsx:114 | keeps only projects of the category, all taken from the input |
| PortfolioSection.Filtered | src/components/PortfolioSection.tsx:111-114 | under "All" the whole list, otherwise only projects of the active category |
| PortfolioSection.InCategoryCounts | src/components/PortfolioSection.tsx:114 | no matching project is dropped: each occurs as often as in the input, and every non-matching one not at all |
| PortfolioSection.InCategoryAppend | src/components/PortfolioSection.tsx:114 | filtering distributes over concatenation, so relative order is kept |
| PortfolioSection.InCategoryOfUniform | src/components/PortfolioSection.tsx:114 | a list already of one category passes unchanged |
| PortfolioSection.FilteredBuiltinsFirst | src/components/PortfolioSection.tsx:109-114 | within a category the built-ins come first, then the store's projects of that category |
| PortfolioSection.TileFor | src/components/PortfolioSection.tsx:165-170 | exactly "large" spans two columns and exactly "tall" spans two rows. "large" gets a 16:9 image box, "tall" a 9:16 one, and any other size a single cell with a 4:3 box |
| PortfolioSection.ShowsPlayBadge | src/components/PortfolioSection.tsx:196 | the play badge is drawn exactly for the type "video" |
| PortfolioSection.BuiltinPlayBadges | src/components/PortfolioSection.tsx:196 | among the built-ins, exactly the two "video" projects get the play badge, and the "Reel" entry does not |
| PortfolioSection.Section.constructor | src/components/PortfolioSection.tsx:91-93 | filter "All", no store projects |
| PortfolioSection.Section.SetActiveCategory | src/components/PortfolioSection.tsx:143 | the clicked button's category becomes the filter |
| PortfolioSection.Section.OnSnapshot | src/components/PortfolioSection.tsx:98-104 | the snapshot replaces the store-derived list; it does not append |
| PortfolioSection.Section.Shown | src/components/PortfolioSection.tsx:159 | the tiles drawn come from the combined list. Under "All" they are the combined list itself, in order; otherwise they are all of the active category |
| TestimonialsSection.FromDoc | src/components/TestimonialsSection.tsx:79-89 | name, role, content, rating and avatar are copied. A missing gradient becomes "from-gray-500 to-slate-500", so the result always has a gradient |
| TestimonialsSection.Merged | src/components/TestimonialsSection.tsx:92 | the mapped store entries in snapshot order, then the six built-ins, so the length is the store count plus six |
| TestimonialsSection.MergedHaveGradients | src/components/TestimonialsSection.tsx:79-92 | every card in the merged list has a gradient |
| TestimonialsSection.Tripled | src/components/TestimonialsSection.tsx:102 | three back-to-back copies: length 3n, and item i is item i mod n |
| TestimonialsSection.TripledAt | src/components/TestimonialsSection.tsx:102 | item i of the three copies is item i mod n of the list |
| TestimonialsSection.Stars | src/components/TestimonialsSection.tsx:186-187 | five stars, with star i (from 0) filled exactly when i < rating |
| TestimonialsSection.StarsCount | src/components/TestimonialsSection.tsx:229-230 | the number of filled stars is the rating clamped to 0..5, and the filled ones come first |
| TestimonialsSection.Section.constructor | src/components/TestimonialsSection.tsx:70 | before any snapshot the list is the six built-ins |
| TestimonialsSection.Section.OnSnapshot | src/components/TestimonialsSection.tsx:78-93 | the list becomes the merge of the snapshot with the built-ins, of length store count plus six |
| TestimonialsSection.Section.Display | src/components/TestimonialsSection.tsx:102 | the marquee row has three times as many cards, and card i is entry i mod n |
| TestimonialDialog.GradientIndex | src/components/TestimonialDialog.tsx:24 | `Math.floor(roll * 8)` is an index below eight, the floor of the product |
| TestimonialDialog.RandomGradient | src/components/TestimonialDialog.tsx:13-24 | the chosen gradient is one of the eight listed |
| TestimonialDialog.RoleLine | src/components/TestimonialDialog.tsx:83 | with a company, the role, then ", ", then the company. Otherwise the bare role. The result equals the role exactly when no company was given |
| TestimonialDialog.Assemble | src/components/TestimonialDialog.tsx:81-89 | name and avatar from the account; role line, content and rating from the form; a listed gradient |
| TestimonialDialog.SubmitErrorMessage | src/components/TestimonialDialog.tsx:107-113 | "permission-denied" gives the rules hint, else a present error message, else the default text. The message is never empty |
| TestimonialDialog.LoginErrorNotice | src/components/TestimonialDialog.tsx:48-57 | "auth/unauthorized-domain" gives "Configuration Error", "auth/popup-closed-by-user" gives "Cancelled", and any other code gives "Login Failed" with the error's message |
| TestimonialDialog.DialogStars | src/components/TestimonialDialog.tsx:198-209 | five stars, star s (from 1) filled when s <= rating |
| TestimonialDialog.DialogStarsMatchCard | src/components/TestimonialDialog.tsx:198-209 | the dialog's rating row (star s filled when s <= rating) equals the card's row for the same rating |
| TestimonialDialog.ClickedStars | src/components/TestimonialDialog.tsx:202-206 | after star k is clicked, exactly stars 1..k are filled |
| TestimonialDialog.Dialog.constructor | src/components/TestimonialDialog.tsx:27-35 | closed, not loading, signed out, role/company/content empty, rating 5 |
| TestimonialDialog.Dialog.SetOpen | src/components/TestimonialDialog.tsx:126 | the open flag follows the dialog's open/close events |
| TestimonialDialog.Dialog.HandleGoogleLogin | src/components/TestimonialDialog.tsx:37-65 | a successful sign-in stores the account. A failure keeps the previous user and shows the notice chosen by `LoginErrorNotice` |
| TestimonialDialog.Dialog.EditText | src/components/TestimonialDialog.tsx:175 | the edited input's field gets the value and the other fields are unchanged |
| TestimonialDialog.Dialog.ClickStar | src/components/TestimonialDialog.tsx:202 | clicking star k sets the rating to k and nothing else |
| TestimonialDialog.Dialog.HandleSubmit | src/components/TestimonialDialog.tsx:67-123 | signed out: nothing is written, the sign-in message is shown, and open, loading and form are unchanged. Signed in: the assembled record is written, loading is on while it is pending and off afterwards. On success the dialog closes and the form is blanked. On failure the form is kept and `SubmitErrorMessage` is shown. The user is kept in every case |
| AddPortfolioForm.Put | src/components/AddPortfolioForm.tsx:38-40 | exactly the named field changes |
| AddPortfolioForm.ErrorMessage | src/components/AddPortfolioForm.tsx:114-122 | "storage/unauthorized", then "permission-denied", then a present message, then the default; the first match wins and the text is never empty |
| AddPortfolioForm.Contains | src/components/AddPortfolioForm.tsx:55 | `imageUrl.includes(part)`, tied to occurrence at some index by `ContainsInfix` and `ContainsAt` |
| AddPortfolioForm.ContainsInfix | src/components/AddPortfolioForm.tsx:55 | any string with "firebasestorage" inside it passes the `includes` test |
| AddPortfolioForm.ContainsAt | src/components/AddPortfolioForm.tsx:55 | conversely, a URL that passes the `includes` test has "firebasestorage" at some position |
| AddPortfolioForm.HandleDelete | src/components/AddPortfolioForm.tsx:48-72 | declining deletes nothing. Confirming always deletes the record. The file is deleted exactly when the record delete succeeded and the URL contains "firebasestorage". The toast follows the record delete |
| AddPortfolioForm.Form.constructor | src/components/AddPortfolioForm.tsx:13-24 | not loading or uploading, no projects, no file, and the blank form ("Websites", "website", "regular") |
| AddPortfolioForm.Form.OnSnapshot | src/components/AddPortfolioForm.tsx:26-36 | the snapshot replaces the project list |
| AddPortfolioForm.Form.HandleChange | src/components/AddPortfolioForm.tsx:38-40 | the form becomes `Put` of the old form |
| AddPortfolioForm.Form.HandleFileChange | src/components/AddPortfolioForm.tsx:42-46 | the first chosen file is kept. An event with no file keeps the previous choice |
| AddPortfolioForm.Form.HandleSubmit | src/components/AddPortfolioForm.tsx:74-133 | with no file the pasted URL is written. With a file the uploaded URL overrides it, a missing storage client fails with the thrown text, and a failed upload writes nothing. Loading is on during the write. On success the form is blanked and the file cleared. On any failure both are kept and `ErrorMessage` is shown. Loading and uploading are off afterwards |
| Workflow.StepIds | src/pages/Workflow.tsx:43-150 | the seven steps are numbered 1..7 in order, so the ids are ascending and distinct |
| Workflow.AddIfAbsent | src/pages/Workflow.tsx:202 | the id ends up present. An id already present leaves the list unchanged, a new one is appended after the earlier entries in order, and a duplicate-free list stays duplicate-free |
| Workflow.Observe | src/pages/Workflow.tsx:198-204 | the entries applied in order, each intersecting one through the add-if-absent updater; the list grows by at most one per entry |
| Workflow.ObserveExtends | src/pages/Workflow.tsx:198-204 | a batch of observer entries only appends: earlier entries keep their places |
| Workflow.ObserveNoDuplicates | src/pages/Workflow.tsx:198-204 | no batch of entries puts an id in the list twice |
| Workflow.ObserveMembers | src/pages/Workflow.tsx:198-204 | after a batch, an id is present exactly when it was before or some intersecting entry reported it |
| Workflow.DecimalString | src/pages/Workflow.tsx:310 | `String(n)`: at least one character, all decimal digits |
| Workflow.DecimalRoundTrip | src/pages/Workflow.tsx:310 | reading back the decimal digits of a number gives the number |
| Workflow.StepLabel | src/pages/Workflow.tsx:310 | the label has at least two decimal digits and reads back as the id. It starts with '0' exactly when the id is below 10, and is then two digits long |
| Workflow.RowReverse | src/pages/Workflow.tsx:278 | a card is row-reversed exactly when its index is even |
| Workflow.LayoutAlternates | src/pages/Workflow.tsx:278-286 | the first card is row-reversed and consecutive cards alternate |
| Workflow.Page.constructor | src/pages/Workflow.tsx:153 | no phase is visible yet |
| Workflow.Page.OnIntersection | src/pages/Workflow.tsx:196-205 | the list is the entries applied in order through the add-if-absent updater. It stays duplicate-free, keeps its old entries in place, and a card is visible afterwards exactly when it was visible before or was reported intersecting |
| Workflow.Page.IsCardVisible | src/pages/Workflow.tsx:279 | a card is faded in exactly when its id is in `visiblePhases` |
| Footer.ToLower | src/components/Footer.tsx:80 | same length, and each character lowercased |
| Footer.RemoveFirstSpace | src/components/Footer.tsx:80 | a string without a space is unchanged; otherwise exactly one character goes |
| Footer.RemoveFirstSpaceSplit | src/components/Footer.tsx:80 | the text before the first space and the text after it are joined |
| Footer.SecondSpaceKept | src/components/Footer.tsx:80 | a label with two spaces keeps its second one |
| Footer.Anchor | src/components/Footer.tsx:80 | starts with '#'. A label without a space gives '#' and the lowercased label; a label with one loses one character |
| Footer.TwoWordAnchor | src/components/Footer.tsx:80 | a label of two words without further spaces becomes '#', the first word lowercased, then the second lowercased, with no space between them |
| Footer.QuickLinkAnchors | src/components/Footer.tsx:19 | the five links are "#services", "#about", "#portfolio", "#joincrew", "#contact" |
| Footer.JoinCrewLinkDangles | src/components/Footer.tsx:77-80 | four links land on an element of the landing page and the "Join Crew" link lands on none |
| Footer.QuickLinkHref | src/components/JoinCrewSection.tsx:92 | the corrected href of every quick link lands on an element of the landing page |
| Footer.CorrectedHrefs | src/components/Navbar.tsx:25 | the corrected hrefs, the crew link being "#join" |
| Footer.QuickLinkHrefsAgree | src/components/Footer.tsx:80 | wherever the derived anchor already landed, the corrected href is that anchor |
| Footer.CrewHrefChanged | src/components/Footer.tsx:19 | only the crew link changes, from "#joincrew" to "#join" |
| Footer.ShowsCta | src/components/Footer.tsx:10-30 | the call-to-action block is drawn exactly when the path is not "/workflow" |

## Left out

- The store, storage and sign-in calls are the outcome parameters described above. Their own behaviour is not modelled: retries, the store ordering snapshots by `createdAt`, and `serverTimestamp`.
- The `timestamp` / `createdAt` fields are not modelled, because they come from the clock. The written records are otherwise complete.
- The success toasts and the sign-in welcome toast are not modelled, because they are fixed presentation text. The failure texts that depend on the error are modelled.
- `console` logging is not modelled.
- Browser constraint checking (`required`, `minLength`, `maxLength`) is not modelled, because the browser performs it. It is stated as the `Submittable` predicates, and the lemmas about submittable forms use them. The submit handlers do not require it: their behaviour does not depend on it.
- ProjectFormDialog.Submittable: counts lengths in Unicode characters, while the browser's `minLength` and `maxLength` count UTF-16 code units. A name of one character outside the Basic Multilingual Plane (an emoji) is two code units, so it passes the browser's `minLength={2}` but not this predicate.
- JoinCrewSection.Submittable: counts the phone's length in Unicode characters rather than UTF-16 code units. Under the phone invariant it holds only ASCII digits, for which the two counts agree.
- JoinCrewSection.Edit: requires a role value to be one of the select's options, since a `select` element reports nothing else.
- JoinCrewSection.Section.HandleChange: applies each edit to the current state. The source spreads the render-time `formData` at src/components/JoinCrewSection.tsx:48 and 53, and what React's batching does with two edits in one render is not modelled.
- TestimonialDialog.Dialog.EditText: applies each edit to the current state, although src/components/TestimonialDialog.tsx:175, 187 and 221 spread the render-time `formData`; two edits in one render are not modelled.
- TestimonialDialog.Dialog.ClickStar: applies the click to the current state, although src/components/TestimonialDialog.tsx:202 spreads the render-time `formData`; a click batched with another edit in one render is not modelled.
- PortfolioSection.Section.SetActiveCategory: requires one of the six filter buttons' categories, since only those buttons call it.
- TestimonialDialog.Dialog.ClickStar: requires a star number 1..5, since only the five star buttons call it.
- TestimonialDialog.GradientIndex: `Math.random()` is the parameter `roll`, a real in [0, 1). Multiplying by eight is exact in floating point, so nothing is lost.
- AddPortfolioForm.Form.HandleSubmit: the `uploading` flag is stated only after the handler, not while the upload is pending. The storage file name built with `Date.now()` is not modelled.
- AddPortfolioForm.HandleDelete: the outcome of the storage file deletion is not a parameter, because the source catches and logs it without further effect. The confirmation prompt is the parameter `confirmed`.
- PortfolioSection: the built-in images are modelled as their import paths rather than the URLs the bundler gives them. The hover state is not modelled.
- Workflow: the card's `data-id` is modelled as the integer it carries. A non-numeric attribute (`Number` giving `NaN`) is not modelled.
- Workflow: the scroll progress bar is not modelled, because it depends on DOM geometry and floating-point division. The observer's registration is not modelled either.
- Footer.ToLower: lowercases ASCII letters only. JavaScript's full Unicode case mapping is not modelled, because every footer label is ASCII.
- src/pages/Admin.tsx is not part of this model: it only makes fetch calls and builds a spreadsheet export.
- src/App.tsx routing is not part of this model: it is react-router's own path matching.
- The preloader, the navigation bar and the static sections (hero, services, about, the index and "me" pages) are not part of this model: they are presentation only. The navigation bar's "#join" link is used only as evidence in the finding below.

## Findings

| source | as written | input that shows it | evidently intended | confidence | as-written member | corrected member |
|---|---|---|---|---|---|---|
| src/components/Footer.tsx:80 | the href is `#` + the lowercased label without its first space, so "Join Crew" gives "#joincrew" | the fourth quick link, "Join Crew" | "#join", the id of the crew section (src/components/JoinCrewSection.tsx:92), which the navigation bar's careers link also uses (src/components/Navbar.tsx:25) | high; not executed | Footer.JoinCrewLinkDangles | Footer.QuickLinkHref |
