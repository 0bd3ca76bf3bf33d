# Flor da Cidade — a verified model of the site's client-side core

Flor da Cidade is the web portal for urban agriculture in Recife. This
project models the client-side core of that portal in Dafny and proves
properties of the model. The core has five parts:

- **The garden map** (`map_component.dfy`, module `MapComponent`).
  - It loads the active gardens and narrows them by a search term.
  - It geocodes each address and keeps the gardens it could locate.
  - It filters them by category, with a "select all" control.
  - It picks each marker's icon from the normalised category name.
  - It plans a route from a typed address or the device position to a chosen garden.
  - The component's state is the class `MapComponent.MapState`. Its fields are the component's state variables except `isFullScreen` and `isSidebarOpen`. Two more fields stand for the map: `mapMounted` for whether the map ref is set, and `mapControls` for the routing controls on the map.
- **The home page's accessibility settings** (`home.dfy`, module `Home`): the clamped font size, the dark-mode, read-aloud and menu toggles, and which hovered elements are read aloud.
- **The course registration form** (`registration_modal.dfy`, module `RegistrationModal`): the form record, the person payload, the three chained requests, and how the error text is chosen.
- **The chat widget** (`chatbot.dfy`, module `Chatbot`): an append-only message log, a send guard, and the loading flag.
- **The course catalogue** (`course_data.dfy`, module `CourseData`): five courses split into the SEAU offer and the external one.

Shared pieces:

- `seqs.dfy` (module `Seqs`) holds array `filter` and the facts about it. Every `filter` call of the components is an instance of it: the search, the surviving records, the category filter, the removal from the filter list and the catalogue split. The model also uses it for the characters kept in a category key, for the removal of a map control and for the digits of a CPF. The other list derivations are sequence comprehensions or appends.
- `text.dfy` (module `Text`) holds the JavaScript string operations the components use:
  - `toUpperCase` and `toLowerCase`, on ASCII letters only;
  - the `\s` class, `trim` and `includes`;
  - the decimal rendering of a count.
- `wrappers.dfy` holds `Option`.

Everything outside the code is an oracle, and the model takes its answers as parameters:

- the backend (`api.get`, `api.post`);
- the geocoding service;
- the device position;
- the routing library;
- the speech synthesiser.

How each part is modelled:

- **Loading.** `MapComponent.Load` states what `fetchAndGeocodeHortas` ends with, as a function of the answers it received. The method `MapState.FetchAndGeocodeHortas` performs the same load on the class's fields and is proved equal to `Load`.
- **Route planning.** `handleCalculateRoute` is modelled the same way, by `RouteDecision` and `MapState.CalculateRoute`.
- **Banner messages.** The messages of the loading, error and alert banners are enumerations (`Notice`, `LoadError`, `Alert`). Their exact Portuguese wording comes from `NoticeText`, `LoadErrorText` and `AlertText`.
- **The loading message.** The `finally` clause always clears it. The load therefore reports the message that was in effect when the `try` block ended, as `lastMessage`.

Behaviour of the code that the model keeps as written:

- **Coordinates of zero.** The route guard tests `destinationHorta?.latitude` for JavaScript truthiness, so a coordinate of exactly 0 refuses the route (`HasRoutableCoords`). Coordinates are integers in the model.
- **"Select all" counts rather than compares.** `allFiltersActuallySelected` compares the number of active filters with the number of options, not the names. A click always leaves the checkbox shown as checked (`SelectAllClick`). The length test means "every category is selected" only when both lists are duplicate-free and the filters are drawn from the options (`AllSelectedMeansEveryName`).
- **Accented category names.** The icon key keeps only `[A-Z0-9_]`. A category whose name has accented letters therefore loses them, and then falls back to the DEFAULT icon unless the rest happens to be a registry key.
- **A null body.**
  - With an empty search term, a null list of gardens reaches the `!hortasParaGeocodificar` test and shows the "no active gardens" notice.
  - With a search term set, `filter` is called on null and throws, so the load-error banner is shown.
- **"[object Object]".** The registration error text is `err.response?.data?.message || err.response?.data || default`, placed in a template string. An object body without a message is therefore shown as "[object Object]" (`ErrorDetail`).
- **Whitespace-only start point.** Such a start passes the route guard, which only tests for the empty string. It then fails as "invalid start point", because `trim` leaves nothing (`BlankStartIsInvalid`).

## Model

| member | source | states |
|---|---|---|
| MapComponent.ReplaceWhitespaceRuns | src/components/MapComponent.jsx:27 | replacing whitespace runs leaves no whitespace and never lengthens the text |
| MapComponent.ReplaceWhitespaceRunsIsScan | src/components/MapComponent.jsx:27 | `replace(/\s+/g, '_')` agrees with a one-pass scanner that emits one `_` per maximal whitespace run |
| MapComponent.ReplaceWhitespaceRunsIdentity | src/components/MapComponent.jsx:27 | text without whitespace is left unchanged |
| MapComponent.NormalizeTipoNome | src/components/MapComponent.jsx:24-28 | a missing or empty category name gives "DEFAULT"; every key consists of `[A-Z0-9_]` only |
| MapComponent.NormalizeFixesKeys | src/components/MapComponent.jsx:24-28 | a non-empty name already made of `[A-Z0-9_]` is its own key |
| MapComponent.NormalizeIdempotent | src/components/MapComponent.jsx:24-28 | normalising a key again gives the same key, or "DEFAULT" for the empty key |
| MapComponent.NormalizeIgnoresCase | src/components/MapComponent.jsx:27 | the key does not depend on the (ASCII) case of the name |
| MapComponent.IconFor | src/components/MapComponent.jsx:451 | the icon is always a registry key: the normalised key when it is registered, DEFAULT otherwise |
| MapComponent.IconForKey | src/components/MapComponent.jsx:30-38 | a category named exactly like one of the seven registry keys gets that key's icon |
| MapComponent.PopupImageUrl | src/components/MapComponent.jsx:43-45 | an image name that is present, non-empty and not `folhin.png` gives backend + `/uploads/imagem/` + name; any other gives the placeholder |
| MapComponent.PopupImageNamesFile | src/components/MapComponent.jsx:43-45 | the popup URL is the placeholder or ends with the stored file name |
| MapComponent.SearchFilter | src/components/MapComponent.jsx:240-245 | an empty term keeps the list; otherwise exactly the records whose name or address contains the term, ignoring case, are kept |
| MapComponent.SearchFilterExact | src/components/MapComponent.jsx:242-245 | the kept records are in input order, and the kept and rejected records together are the input as a multiset |
| MapComponent.SearchIgnoresCase | src/components/MapComponent.jsx:241-244 | an upper-cased or lower-cased term selects the same records as the term itself |
| MapComponent.GeocodeQueries | src/components/MapComponent.jsx:253-254 | one query per pending record, in order: its address (or "undefined") followed by ", Recife, PE, Brasil" |
| MapComponent.Geocoded | src/components/MapComponent.jsx:253-270 | each record is paired with the geocoder's answer for it, and a miss leaves no location |
| MapComponent.Survivors | src/components/MapComponent.jsx:271-272 | the kept records are all located; every record the geocoder found is kept; nothing is kept exactly when every lookup missed |
| MapComponent.LocatedCount | src/components/MapComponent.jsx:253-272 | the located records plus the misses add up to the number of records geocoded |
| MapComponent.SurvivorsCount | src/components/MapComponent.jsx:271-273 | partial failure is tolerated: exactly the misses are lost |
| MapComponent.SurvivorsInOrder | src/components/MapComponent.jsx:272 | the kept records keep the order of the geocoded list |
| MapComponent.NoticeText | src/components/MapComponent.jsx:249-252 | every loading-banner message is non-empty text |
| MapComponent.LoadErrorText | src/components/MapComponent.jsx:276-281 | every error-banner message is non-empty text |
| MapComponent.LoadUnreachable | src/components/MapComponent.jsx:280-281 | a failed fetch loads nothing, shows the load error and sends no geocoding query |
| MapComponent.LoadEmptyNoGeocoding | src/components/MapComponent.jsx:248-251 | nothing to geocode: no records, no error, no query, and the search-specific or general notice |
| MapComponent.LoadErrorIffNoneLocated | src/components/MapComponent.jsx:275-279 | with records to geocode, the error is set exactly when none was located (exactly when every lookup missed), and it is the term-specific message |
| MapComponent.LoadPartialTolerance | src/components/MapComponent.jsx:252-273 | of N pending records with M misses, exactly N − M are loaded, all of them located |
| MapComponent.VisibleHortas | src/components/MapComponent.jsx:292-300 | no active filter shows every record; otherwise exactly the records whose category is an active filter |
| MapComponent.VisibleExact | src/components/MapComponent.jsx:294-297 | the visible records keep their order, and the visible and hidden records together are all records |
| MapComponent.UncategorisedHidden | src/components/MapComponent.jsx:296 | with a filter active, a record without a category is never shown |
| MapComponent.VisibleIgnoresFilterOrder | src/components/MapComponent.jsx:296 | two non-empty filter lists naming the same categories show the same records |
| MapComponent.ToggleFilter | src/components/MapComponent.jsx:425 | a toggle flips the membership of that one name only and appends a name that was absent; removing a present name keeps the others in order, and from a duplicate-free list it removes exactly one entry |
| MapComponent.ToggleTwiceSameMembers | src/components/MapComponent.jsx:425 | toggling a name twice restores the membership of every name |
| MapComponent.ToggleTwiceRestoresAbsent | src/components/MapComponent.jsx:425 | toggling an absent name twice restores the exact list |
| MapComponent.ToggleKeepsNoDuplicates | src/components/MapComponent.jsx:425 | toggling keeps a duplicate-free filter list duplicate-free |
| MapComponent.ToggleTwiceSameVisible | src/components/MapComponent.jsx:292-300 | toggling a name twice never changes the visible records |
| MapComponent.OptionNames | src/components/MapComponent.jsx:426 | "select all" activates the option names, one per option, in order |
| MapComponent.SelectAllClick | src/components/MapComponent.jsx:117-119 | a click selects every name unless the length test says all are selected, in which case it clears; afterwards the checkbox shows checked |
| MapComponent.SelectAllTwiceClears | src/components/MapComponent.jsx:119 | two clicks from a state that is not "all selected" end with no filter |
| MapComponent.AllNamedShowsAllIff | src/components/MapComponent.jsx:426 | activating every option shows all records exactly when there are no options or every record is in one of them |
| MapComponent.AllSelectedMeansEveryName | src/components/MapComponent.jsx:81 | for duplicate-free filters drawn from duplicate-free option names, the length test holds iff every option is selected |
| MapComponent.RejectedIffGuardFails | src/components/MapComponent.jsx:312-315 | a calculation is refused exactly when the map, the start text or the destination's non-zero coordinates are missing |
| MapComponent.RoutedWaypoints | src/components/MapComponent.jsx:368-369 | a route ends at the destination garden and starts at the device position ("meu local") or at the geocoder's answer |
| MapComponent.DevicePathIgnoresLookup | src/components/MapComponent.jsx:389-393 | "meu local", in any case, takes the device path: the address lookup plays no part |
| MapComponent.AddressPathIgnoresDevice | src/components/MapComponent.jsx:336-351 | a typed address never consults the device position |
| MapComponent.BlankStartIsInvalid | src/components/MapComponent.jsx:336-360 | a whitespace-only start passes the guard but fails as an invalid start point |
| MapComponent.AddressPathFailures | src/components/MapComponent.jsx:342-351 | an empty geocoder answer and a thrown lookup are distinct failures |
| MapComponent.FailuresAreAnnounced | src/components/MapComponent.jsx:331-358 | every failure raises an alert, except the silent safety check |
| MapComponent.RemoveOnlyControl | src/components/MapComponent.jsx:318 | removing the only control from the map leaves none |
| MapComponent.MapState.constructor | src/components/MapComponent.jsx:203-216 | the initial state: empty lists, no message, no error, no filters, empty texts, no destination and no control |
| MapComponent.MapState.AttachMap | src/components/MapComponent.jsx:435 | mounting the map keeps the state valid |
| MapComponent.MapState.LoadTipos | src/components/MapComponent.jsx:221-229 | the options become the response's list (an empty list for a null body) on success, and are unchanged on failure |
| MapComponent.MapState.RefreshVisible | src/components/MapComponent.jsx:292-300 | the visible records are recomputed from all records and the active filters |
| MapComponent.MapState.FetchAndGeocodeHortas | src/components/MapComponent.jsx:231-286 | the records, error, last message and queries are those of `Load`; the loading message ends cleared; every loaded record is located; the visible records follow |
| MapComponent.MapState.GeocodePending | src/components/MapComponent.jsx:252-279 | announces the count, sends one query per record, keeps the survivors, raises the term-specific error exactly when none survive |
| MapComponent.MapState.SetSearchTerm | src/components/MapComponent.jsx:427 | the search text takes the typed value |
| MapComponent.MapState.HandleSearchSubmit | src/components/MapComponent.jsx:302-305 | a submit reloads with the typed term: records, error, last message (including the search-specific empty notice) and queries are those of `Load` for that term |
| MapComponent.MapState.HandleToggleFilter | src/components/MapComponent.jsx:425 | the filters are toggled and the visible records follow |
| MapComponent.MapState.HandleSelectAllFilters | src/components/MapComponent.jsx:426 | the filters become all option names or none, and the visible records follow |
| MapComponent.MapState.ClickSelectAll | src/components/MapComponent.jsx:119-120 | a click, possible only while there are categories, calls the handler with the negated length test; afterwards the checkbox shows checked |
| MapComponent.MapState.SetStartPoint | src/components/MapComponent.jsx:428 | the start text takes the typed value |
| MapComponent.MapState.SetAsDestination | src/components/MapComponent.jsx:307-309 | the chosen garden becomes the destination |
| MapComponent.MapState.RemoveControl | src/components/MapComponent.jsx:318 | the map keeps every control except the removed one |
| MapComponent.MapState.DetachRoute | src/components/MapComponent.jsx:317-320 | any current control is removed from the map and forgotten |
| MapComponent.MapState.ResolveStartPoint | src/components/MapComponent.jsx:324-360 | the start coordinate is the device position for "meu local", the geocoder's answer for a non-blank address, and a named failure otherwise |
| MapComponent.MapState.ProceedWithRouting | src/components/MapComponent.jsx:364-387 | with a mounted map and a routable destination, one control from the start to the destination is added and remembered; otherwise nothing is added; the busy flag ends cleared |
| MapComponent.MapState.PlanRoute | src/components/MapComponent.jsx:316-393 | after the guard the outcome is `RouteDecision`; the old control is gone, the new one (if any) is the only one on the map, and the busy flag ends cleared |
| MapComponent.MapState.CalculateRoute | src/components/MapComponent.jsx:311-395 | the outcome is `RouteDecision` and the alert matches it; a refused calculation changes nothing; otherwise the remembered control is exactly the route's |
| MapComponent.MapState.ClearRoute | src/components/MapComponent.jsx:397-404 | the control is removed, the start text is emptied and the destination forgotten |
| Home.IncreaseFont | src/modules/Home/Home.jsx:70 | the size grows by 2 up to 24 and never exceeds it; valid sizes stay valid |
| Home.DecreaseFont | src/modules/Home/Home.jsx:71 | the size shrinks by 2 down to 12 and never falls below it; valid sizes stay valid |
| Home.FontActionsStayValid | src/modules/Home/Home.jsx:70-71 | no sequence of presses leaves the even sizes from 12 to 24 |
| Home.InitialSizeStaysValid | src/modules/Home/Home.jsx:28 | from the initial size 16, every sequence of presses gives a valid size |
| Home.PressesReach | src/modules/Home/Home.jsx:70-71 | between two valid sizes, a walk of presses reaches the target exactly |
| Home.ReachableIffValid | src/modules/Home/Home.jsx:28 | the sizes reachable from 16 are exactly the even sizes from 12 to 24 |
| Home.IncreaseDecreaseInverse | src/modules/Home/Home.jsx:70-71 | inside the bounds, the two buttons undo each other |
| Home.SpeechFor | src/modules/Home/Home.jsx:44-54 | read-aloud speaks exactly when it is on, the tag is one of the eleven readable tags and the text is non-empty; it speaks that text in pt-BR |
| Home.AccessibilitySettings.constructor | src/modules/Home/Home.jsx:27-30 | menu closed, size 16, light mode, read-aloud off |
| Home.AccessibilitySettings.Increase | src/modules/Home/Home.jsx:70 | the size takes the increased value and stays valid |
| Home.AccessibilitySettings.Decrease | src/modules/Home/Home.jsx:71 | the size takes the decreased value and stays valid |
| Home.AccessibilitySettings.ToggleDarkMode | src/modules/Home/Home.jsx:75 | dark mode flips |
| Home.AccessibilitySettings.ToggleTts | src/modules/Home/Home.jsx:80 | read-aloud flips |
| Home.AccessibilitySettings.ToggleMenu | src/modules/Home/Home.jsx:88 | the accessibility menu flips |
| Home.AccessibilitySettings.HandleTtsMouseOver | src/modules/Home/Home.jsx:44-54 | the utterance for a hovered element is the one `SpeechFor` describes |
| RegistrationModal.WithField | src/components/RegistrationModal.jsx:24-27 | the named field takes the value and every other field is kept |
| RegistrationModal.WithFieldLaws | src/components/RegistrationModal.jsx:26 | writing a field's own value changes nothing; a second write to a field overrides the first |
| RegistrationModal.WithFieldCommutes | src/components/RegistrationModal.jsx:26 | writes to two different fields commute |
| RegistrationModal.InitialFormShape | src/components/RegistrationModal.jsx:5-18 | the initial form is empty except the schooling, whose default is one of the select's options |
| RegistrationModal.StripNonDigits | src/components/RegistrationModal.jsx:40 | the CPF sent is the digits of the input: only digits, and every digit of the input occurs |
| RegistrationModal.StripNonDigitsExact | src/components/RegistrationModal.jsx:40 | the digits keep their order, and with the removed non-digits they make up the input |
| RegistrationModal.StripNonDigitsIdempotent | src/components/RegistrationModal.jsx:40 | stripping twice is stripping once; a digits-only CPF is sent as typed |
| RegistrationModal.PessoaData | src/components/RegistrationModal.jsx:37-46 | each backend key carries its form field (interests as `ocupacao_atual`), and the CPF has its digits only |
| RegistrationModal.PessoaIgnoresSenha | src/components/RegistrationModal.jsx:37-46 | the password never reaches the person payload |
| RegistrationModal.PessoaIgnoresCpfPunctuation | src/components/RegistrationModal.jsx:40 | CPFs with the same digits give the same payload, however punctuated |
| RegistrationModal.FirstTruthy | src/components/RegistrationModal.jsx:73-74 | the first present, non-empty candidate wins; the fallback appears only when no candidate is present and non-empty |
| RegistrationModal.ErrorDetailIsFallbackChain | src/components/RegistrationModal.jsx:73 | the error detail is the first truthy of the response's message, its data and the default sentence |
| RegistrationModal.ErrorDetailPriorities | src/components/RegistrationModal.jsx:73-74 | a backend message wins; no response or an empty body gives the default; a non-empty text body is shown as it is; an object without a message shows "[object Object]" |
| RegistrationModal.Submit | src/components/RegistrationModal.jsx:29-78 | a submission sends one to three requests and ends with exactly one of the error and the success banner |
| RegistrationModal.SubmitSteps | src/components/RegistrationModal.jsx:47-63 | person, then user with the new person's id, then enrolment with the new user's id; the first failure stops the chain with its error |
| RegistrationModal.SuccessIffAllCreated | src/components/RegistrationModal.jsx:63-65 | success is announced exactly when all three requests succeed, naming the course |
| RegistrationModal.SenhaOnlyInUserRequest | src/components/RegistrationModal.jsx:51-54 | changing the password changes no request but the user request |
| RegistrationModal.Modal.constructor | src/components/RegistrationModal.jsx:4-22 | the modal starts with the initial form, not loading, with no banner |
| RegistrationModal.Modal.HandleChange | src/components/RegistrationModal.jsx:24-27 | the form takes the new value in the named field only |
| RegistrationModal.Modal.HandleSubmit | src/components/RegistrationModal.jsx:29-78 | the requests and banners are those of `Submit`, and the loading flag ends cleared |
| Chatbot.AcceptsIff | src/components/Chatbot.jsx:28 | a send goes ahead exactly when nothing is in flight and the input has a non-whitespace character |
| Chatbot.BotMessage | src/components/Chatbot.jsx:37-42 | the bot answers with the backend's answer, or with the fixed apology when the request fails |
| Chatbot.TranscriptShape | src/components/Chatbot.jsx:13-42 | the log is the greeting, then one user message and one bot message per exchange, in order |
| Chatbot.TranscriptGrows | src/components/Chatbot.jsx:31-42 | an exchange keeps the log and appends exactly two messages |
| Chatbot.ChatWindow.constructor | src/components/Chatbot.jsx:12-17 | closed, only the greeting, empty input, not loading |
| Chatbot.ChatWindow.HandleToggleChat | src/components/Chatbot.jsx:24 | the window flips open or closed |
| Chatbot.ChatWindow.SetInputValue | src/components/Chatbot.jsx:82 | the input takes the typed value |
| Chatbot.ChatWindow.BeginSend | src/components/Chatbot.jsx:26-33 | a refused send changes nothing; an accepted one appends the user message, clears the input and sets the loading flag |
| Chatbot.ChatWindow.FinishSend | src/components/Chatbot.jsx:35-45 | the bot message is appended and the loading flag cleared, completing the exchange |
| Chatbot.ChatWindow.HandleSendMessage | src/components/Chatbot.jsx:26-46 | nothing happens, or exactly the user message and the bot message are appended; the log only grows and stays the transcript of its exchanges |
| CourseData.SeauOf | src/constants/courseData.js:15 | exactly the courses run by SEAU are kept |
| CourseData.ExternalOf | src/constants/courseData.js:16 | exactly the courses not run by SEAU are kept |
| CourseData.SplitIsPartition | src/constants/courseData.js:15-16 | the two lists keep the catalogue's order, share no course, and together are the catalogue as a multiset |
| CourseData.Ids | src/constants/courseData.js:7-13 | the ids of the courses, in order |
| CourseData.SeauOfShipped | src/constants/courseData.js:15 | the shipped SEAU offer is the first three courses |
| CourseData.ExternalOfShipped | src/constants/courseData.js:16 | the shipped external offer is the last two courses |
| CourseData.ShippedSplit | src/constants/courseData.js:7-16 | the shipped offers have ids 1, 2, 3 and 4, 5 |
| CourseData.CatalogueIdsDistinct | src/constants/courseData.js:7-13 | the course ids, which the page uses as list keys, are distinct |
| Text.Upper | src/components/MapComponent.jsx:27 | `toUpperCase`: same length, each ASCII lower-case letter raised |
| Text.Lower | src/components/MapComponent.jsx:241 | `toLowerCase`: same length, each ASCII upper-case letter lowered |
| Text.LowerIgnoresCase | src/components/MapComponent.jsx:241-244 | lower-casing forgets how the input was cased |
| Text.UpperIgnoresCase | src/components/MapComponent.jsx:27 | upper-casing forgets how the input was cased |
| Text.TrimEmptyIffBlank | src/components/Chatbot.jsx:28 | `trim()` is empty exactly for strings made only of whitespace |
| Text.Contains | src/components/MapComponent.jsx:243-244 | `includes` holds exactly when the term occurs at some index |
| Text.Decimal | src/components/MapComponent.jsx:252 | a count renders as decimal digits that denote exactly that count, with no leading zero |
| MapComponent.DeviceRouteAsWritten | src/components/MapComponent.jsx:326-330 | as written, each "meu local" calculation registers one more listener; a position fix adds a control from the fix for every listener, and only the last is remembered |
| MapComponent.SecondDeviceRouteLeavesStaleControl | src/components/MapComponent.jsx:326-330 | after two "meu local" calculations the map holds two controls, one of them to the first destination and not remembered |

## Left out

- Rendering is not modelled: JSX, Leaflet markers and popups, marker clustering, the overlay, the carousel, the modal's markup and class names.
- Full-screen mode and the sidebar, filter-panel and route-panel toggles are not modelled. They are rendering-only state.
- Browser and device effects are not modelled: `document.documentElement.style.fontSize`, the `dark-mode` body class, `speechSynthesis` (cancel and speak), scrolling the chat, `map.locate`, and `alert` itself. The model returns the alert or utterance instead.
- The network is not modelled: the backend (`src/services/api.js`), the geocoding service and the routing service are oracles whose answers are parameters. `BACKEND_URL` is a parameter of `PopupImageUrl`. The `src/services/api.js` of the repository exports only its default `api` instance and no `BACKEND_URL`; MapComponent.jsx line 14 imports a name that does not exist there, so every image URL would start with "undefined" under a bundler that tolerates the missing export. `src/services/api.js` is not part of this model.
- Geocoding concurrency is not modelled: `Promise.all`, the random delay before each lookup, and the order in which lookups complete. Only the answers matter for the result, and they arrive aligned with the records.
- Coordinates are integers. `parseFloat` and NaN are not modelled, and a lookup that parses to NaN is treated as found. This is because the check `typeof h.latitude === 'number'` lets NaN through as well.
- Case mapping covers ASCII letters only. Unicode case mapping is not modelled. In the source, `toLowerCase` also lowers accented capitals, so a search for "á" matches "Á". `toUpperCase` turns "ß" into "SS" and the dotless "ı" into "I", which then count as key letters.
- MapComponent.MapState.CalculateRoute: the `.on('locationfound')` / `.on('locationerror')` listeners are modelled as one answer per calculation, the behaviour the code evidently intends. In the source the listeners accumulate, so the proved "at most one routing control on the map" (`MapState.Valid`) does not hold for repeated "meu local" calculations; see Findings. The compass button's `map.locate` also fires the stale listeners; that is not modelled. A position that never arrives, which leaves the busy flag set, is not modelled.
- A failure of the routing service after the control has been added is not modelled.
- `MapComponent.MapState.CalculateRoute`: the button's `disabled` attribute, which also blocks clicks while a route is being calculated, is not modelled. The handler's own guard is.
- `RegistrationModal.Modal.HandleSubmit`: the five-second `setTimeout(onClose)` after success is not modelled. Nor is the browser's `required` validation, which blocks submission of empty fields.
- The modal's `if (!course) return null` is not modelled. `Modal` is constructed with a course.
- `RegistrationModal.Modal.HandleChange`: only the nine named inputs are modelled. An input with any other name would add a field.
- `Chatbot.BotMessage`: a reply whose `answer` is missing, which renders as empty text, is modelled as an answer. The empty string stands for it.
- React's batching and stale closures are not modelled. Each handler sees the state left by the previous one, and the visibility effect runs right after the change that triggers it.
- MapComponent.DeviceRouteAsWritten: controls have no identity apart from their start and destination, so removing the remembered control also removes a stale control with the same fix and destination, while Leaflet's `removeControl` (MapComponent.jsx line 318) removes one object. The stale control left by two calculations to different gardens is unaffected.
- MapComponent.GeocodeQueries: `None` stands for an absent `endereco` key, which the template string renders as "undefined". A JSON `null` address is sent as "null, Recife, PE, Brasil" by the source, and the model does not distinguish it. The queries are the text before `encodeURIComponent`.
- The `console.error` / `console.warn` logging (MapComponent.jsx lines 226, 267 and 282, RegistrationModal.jsx line 72, Chatbot.jsx line 40) is not modelled; it has no effect on the state.
- RegistrationModal.Submit: a successful reply is modelled as `Created(id)` with an integer id. A 2xx reply without `id_pessoa` or `id_usuario` makes the source forward `undefined` in the next request (RegistrationModal.jsx lines 52 and 60); the model cannot express that.
- `MapComponent.MapState.FetchAndGeocodeHortas`: the loading message is modelled only at its final value. It is cleared at the end, with the message in effect before that returned as `lastMessage`; the intermediate banner states are not modelled.

## Findings

| source | as written | input that shows it | evidently intended | confidence | as-written member | corrected member |
|---|---|---|---|---|---|---|
| src/components/MapComponent.jsx:326-334 | every "meu local" calculation adds `locationfound` and `locationerror` listeners to the map and never removes them; each later position fix runs all of them, and each adds a control towards the destination its closure captured | "meu local" to garden A, then "meu local" to garden B: the second fix adds a route to A as well as to B, and only the route to B is remembered, so "clear route" leaves the route to A on the map | one listener per calculation (for example `once`), so the map holds at most the remembered control | not executed; read from the code | MapComponent.SecondDeviceRouteLeavesStaleControl | MapComponent.MapState.CalculateRoute |
