# Roomly front end: address lookups, room API requests and form state

This project models the parts of the Roomly React front end that hold
logic, and proves properties about them:

- **the postal-code address service (`CopomexService`)**:
  - the guards each lookup applies before it asks the provider;
  - how every failure collapses into `[]` or `null`;
  - how a record is projected into autocomplete fields;
  - how an address is validated against the record. The validation
    compares case-insensitively and builds its error list in a fixed
    order.
- **the room API client (`RoomService`)**:
  - the request headers;
  - how a reply is read (HTTP status, then the `success` envelope, then
    the operation's default message);
  - the filter-to-query serialiser of `getRooms`;
  - the form-field naming of the image upload.
- **the listing-publication form (`FormPublication`)**: its state and
  handlers. They edit text fields, service check boxes and extra
  services, and hold at most ten images. The publish button is gated on
  eight fields.
- **the owner dashboard (`AdminDashboard`)**: the room list, the status
  filter, the per-room expanders and the delete-confirmation dialog.
- **the sign-up form (`RegisterForm`)**: the role selector and the
  submit gate on accepting the terms.

## Modules

Each source file is one module.

- `Copomex` (copomex.dfy):
  - The provider is a function from a structured `Endpoint` to what the
    provider returns: no answer, or a status with an optional JSON
    envelope.
  - Each lookup returns its value together with the list of requests it
    issued, so "no request is made" can be stated.
  - `ValidarDireccion` is a method that pushes errors one by one, like
    the source. It is proved equal to the declarative check list
    `Checks` / `Mismatches`.
  - Lower-casing is a parameter `lower`. The worked examples use the
    Latin-1 fold `Text.LatinLower`.
- `RoomService` (room_service.dfy):
  - The backend is a function from the `Request` that `fetch` would
    receive to its `Reply`.
  - Headers are a map. The object spreads become map unions in which the
    right-hand side wins.
  - Query parameters are a sequence of (key, value) pairs.
  - `BuildQuery` and `ImageFields` are loops proved against the
    functions `QueryParams` and `ImageFieldName`.
  - The stored token is a parameter: `None` stands for `localStorage`
    returning `null`.
- `FormPublicator` (form_publicator.dfy): the class `Publication`, whose
  fields are the component's three state variables. Each handler is a
  method stated by the pure update it performs, and `Valid()` (at most ten
  images) is kept by every handler.
- `RoomAdministrator` (room_administrator.dfy): the class `Dashboard`,
  whose fields are the component's five state variables, plus the
  filtering and deletion functions with their lemmas.
- `RegisterForm` (register_form.dfy): the class `Registration` for the
  selected role, and the pure `Submission`. `Submission` models
  `handleSubmit` with the role it reads passed in.
- Helpers:
  - `Wrappers`: `Option` and `Result`.
  - `Text`: JavaScript `trim`, `length` in UTF-16 code units, integer
    `toString`, `join`, and a Latin-1 lower-case fold.
  - `Lists`: `filter` and its membership, count and order lemmas.

Three behaviours of the code worth noting:

- `getInfoCodigoPostal` checks only that the postal code is exactly five
  UTF-16 code units long, not that they are digits. `Copomex.LengthIsTheOnlyGuard`
  shows "abcde" being sent to the provider.
- `buscarCodigosPostales` passes `limit` on to the provider and never
  truncates the answer itself. `Copomex.SearchIsNotTruncated` shows three
  codes returned for limit 1.
- A transport failure during `validarDireccion` is reported as
  'Código postal no válido', the same message as an unknown code, because
  `getInfoCodigoPostal` turns every failure into `null`.
  `Copomex.TransportFailureLooksLikeUnknownCode` shows this.

## Model

| member | source | states |
|---|---|---|
| Copomex.MakeRequest | src/services/copomexService.ts:42-70 | succeeds exactly when the provider answered with an ok status, an envelope and no error flag, and then returns that envelope; no answer is a transport error; a non-ok status fails before the body is read; an error flag fails with the provider's message |
| Copomex.ProviderErrorText | src/services/copomexService.ts:62 | the provider's message when it is present and non-empty, otherwise "Error " followed by the error code |
| Copomex.GetEstados | src/services/copomexService.ts:72-80 | issues exactly one request; returns the delivered state list, or `[]` on any failure or missing field |
| Copomex.GetMunicipiosPorEstado | src/services/copomexService.ts:82-94 | an all-whitespace state gives `[]` with no request; otherwise one request for that state, and the delivered list or `[]` |
| Copomex.GetInfoCodigoPostal | src/services/copomexService.ts:96-112 | a code whose length in UTF-16 code units is not 5 gives `null` with no request; otherwise one request, and the result is the delivered record or `null` |
| Copomex.LengthIsTheOnlyGuard | src/services/copomexService.ts:98-100 | a five-letter non-numeric code is still sent; a four-digit code is not |
| Copomex.GuardsCountUtf16Units | src/services/copomexService.ts:98 | four digits followed by an emoji are six code units, so no postal-code request is made; a lone emoji is two units, so a search is sent (with the default limit 10) |
| Copomex.TransportFailureLooksLikeUnknownCode | src/services/copomexService.ts:54-63 | a provider that does not answer and one that answers with an empty envelope give the same lookup result |
| Copomex.BuscarCodigosPostales | src/services/copomexService.ts:114-126 | a fragment shorter than 2 UTF-16 code units gives `[]` with no request; otherwise one request carrying `limit`, which defaults to 10, and the delivered list or `[]` |
| Copomex.SearchIsNotTruncated | src/services/copomexService.ts:116-121 | with limit 1 and three codes delivered, all three are returned |
| Copomex.GetColoniasPorMunicipio | src/services/copomexService.ts:128-140 | an all-whitespace municipality gives `[]` with no request; otherwise one request, and the delivered list or `[]` |
| Copomex.AutocompletarDireccion | src/services/copomexService.ts:142-158 | `null` exactly when the postal-code lookup is `null`; otherwise state, municipality and city are copied, and the neighbourhoods equal the record's `asentamiento` element for element; the same requests are issued |
| Copomex.Autocomplete97205 | src/services/copomexService.ts:149-158 | worked example: code 97205 autocompletes to Yucatán, Mérida, Mérida and ["Itzimná", "Centro"] |
| Copomex.MismatchesInOrder | src/services/copomexService.ts:190-205 | the error list is the state message, then the municipality message, then the neighbourhood message, each present exactly when its check fails |
| Copomex.ValidarDireccion | src/services/copomexService.ts:165-211 | issues exactly the lookup's requests; a `null` lookup gives `valida = false`, `errores = ['Código postal no válido']` and no suggestions; otherwise the suggestions are the record, the errors are the failed checks in order, and `valida` holds exactly when there are no errors |
| Copomex.MessagesDistinct | src/services/copomexService.ts:184-204 | the four error messages differ from each other |
| Copomex.ValidIffEveryCheckPasses | src/services/copomexService.ts:190-208 | no errors exactly when the state matches, the municipality matches `municipio` or `ciudad`, and some `asentamiento` entry matches the neighbourhood |
| Copomex.AtMostOneErrorEach | src/services/copomexService.ts:190-205 | at most three errors, and each message at most once |
| Copomex.MunicipioFallsBackToCiudad | src/services/copomexService.ts:194-197 | a municipality that matches the record's `ciudad` is accepted even when it differs from `municipio` |
| Copomex.EstadoReportedIffDifferent | src/services/copomexService.ts:190-192 | the state message is reported exactly when the states differ after lower-casing |
| Copomex.ColoniaMismatchListsOptions | src/services/copomexService.ts:199-205 | when no entry matches, the neighbourhood message is reported and lists every option at its place in the comma-joined text |
| Copomex.Validation97205Accepted | src/services/copomexService.ts:190-208 | worked example: a lower-case address in 97205 validates with no errors |
| Copomex.Validation97205AccentMatters | src/services/copomexService.ts:194-197 | worked example: "merida" without the accent is reported as a municipality mismatch and nothing else |
| Text.Utf16Length | src/services/copomexService.ts:98 | `length` lies between the number of characters and twice that number |
| Text.Utf16LengthBmp | src/services/copomexService.ts:116 | on text without characters above U+FFFF, `length` is the number of characters |
| Text.TrimEmptyIff | src/services/copomexService.ts:84 | `trim` gives the empty string exactly when every character is JavaScript whitespace |
| Text.JoinListsEveryPart | src/services/copomexService.ts:204 | every option appears verbatim in the joined text at its own offset |
| RoomService.RequestHeaders | src/services/roomService.ts:72-86 | the keys are the caller's, plus Content-Type, plus Authorization when a truthy token is stored; caller values win; Content-Type defaults to application/json; Authorization is "Bearer " + token |
| RoomService.MakeRequest | src/services/roomService.ts:64-99 | the request sent carries the caller's verb and body and the merged headers; the response is the reply read through the status check |
| RoomService.ErrorText | src/services/roomService.ts:108-110 | the envelope's non-empty `error`, otherwise the operation's default message |
| RoomService.Outcome | src/services/roomService.ts:89-94 | succeeds exactly when the status is ok, the body parses and `success` is true, with `data` as the value; otherwise a network, HTTP, JSON or rejection error, the last carrying `ErrorText` |
| RoomService.ItemPairs | src/services/roomService.ts:126-127 | one (key, item) pair per array element, in array order |
| RoomService.BuildQuery | src/services/roomService.ts:119-136 | the loop builds exactly `QueryParams`: the filter pairs in entry order, then page, then limit |
| RoomService.FilterParamsAppend | src/services/roomService.ts:124-132 | the pairs of consecutive entry lists are concatenated in order |
| RoomService.FilterParamsSingle | src/services/roomService.ts:124-131 | a one-entry filter contributes that entry's pairs |
| RoomService.SkippedEntryAddsNothing | src/services/roomService.ts:125 | an `undefined`, `null` or `''` entry contributes nothing wherever it stands |
| RoomService.ScalarEntryAddsOnePair | src/services/roomService.ts:128-130 | a present scalar contributes exactly one (key, `toString`) pair in its place |
| RoomService.ListEntryAddsItemPairs | src/services/roomService.ts:126-127 | an array entry contributes its item pairs in its place, and an empty array contributes nothing |
| RoomService.ZeroAndFalseAreSent | src/services/roomService.ts:125-129 | `0` and `false` are kept and sent as "0" and "false" |
| RoomService.FilterParamsKeys | src/services/roomService.ts:124-132 | every filter pair's key is the key of some entry |
| RoomService.PageAndLimitComeLast | src/services/roomService.ts:135-136 | page and limit are the last two pairs; when no entry is called page or limit, each key occurs exactly once; with no filters they are the only pairs |
| RoomService.CreateRoom | src/services/roomService.ts:101-117 | POST /rooms with the room as body; the result is `Outcome` with "Error al crear el cuarto" |
| RoomService.GetRooms | src/services/roomService.ts:119-150 | GET /rooms with `QueryParams`, page defaulting to 1 and limit to 10; the result is `Outcome` with "Error al obtener los cuartos" |
| RoomService.GetRoomById | src/services/roomService.ts:152-165 | GET /rooms/{id}; the result is `Outcome` with "Error al obtener el cuarto" |
| RoomService.UpdateRoom | src/services/roomService.ts:167-183 | PUT /rooms/{id} with the changes as body; the result is `Outcome` with "Error al actualizar el cuarto" |
| RoomService.DeleteRoom | src/services/roomService.ts:185-200 | DELETE /rooms/{id}; succeeds with `true` exactly when the reply is accepted, otherwise fails with the error `Outcome` gives for "Error al eliminar el cuarto" |
| RoomService.GetUserRooms | src/services/roomService.ts:202-215 | GET /users/{userId}/rooms; the result is `Outcome` with "Error al obtener los cuartos del usuario" |
| RoomService.ImageFieldNamesDistinct | src/services/roomService.ts:221 | different positions get different field names |
| RoomService.ImageFields | src/services/roomService.ts:219-222 | one field per image, named image_0, image_1, … in list order |
| RoomService.UploadRoomImages | src/services/roomService.ts:217-247 | POST /rooms/{id}/images whose only header is Authorization "Bearer " + the token, "null" when none is stored; the form fields of `ImageFields`; the result is `Outcome` with "Error al subir las imágenes" |
| FormPublicator.WithFieldChangesOnlyThatField | src/pages/Forms/publicator/formPublicator.tsx:57-60 | setting one input changes that input and leaves every other input, the services and the images as they were |
| FormPublicator.UploadKeepsAtMostTen | src/pages/Forms/publicator/formPublicator.tsx:86-92 | an upload keeps the old images as a prefix and appends a prefix of the new files; the new length is the sum, capped at ten |
| FormPublicator.RemoveAtValidIndex | src/pages/Forms/publicator/formPublicator.tsx:94-98 | removing at a valid index shortens the list by one and keeps the other images in order |
| FormPublicator.RemoveServiceDropsEveryCopy | src/pages/Forms/publicator/formPublicator.tsx:79-84 | the removed service appears nowhere afterwards, and every other entry keeps its count |
| FormPublicator.PublishEnabled | src/pages/Forms/publicator/formPublicator.tsx:456-465 | enabled exactly when all eight text inputs are non-empty |
| FormPublicator.Publication.constructor | src/pages/Forms/publicator/formPublicator.tsx:34-55 | empty fields, no extra services or images, all five services ticked, empty extra-service box |
| FormPublicator.Publication.HandleChange | src/pages/Forms/publicator/formPublicator.tsx:57-60 | the form becomes the old form with the named input set, and stays valid |
| FormPublicator.Publication.HandleServiceChange | src/pages/Forms/publicator/formPublicator.tsx:62-67 | only the named flag changes, to the box's state |
| FormPublicator.Publication.SetAdditionalService | src/pages/Forms/publicator/formPublicator.tsx:318 | the extra-service box takes the typed text |
| FormPublicator.Publication.HandleAddService | src/pages/Forms/publicator/formPublicator.tsx:69-77 | a blank box changes nothing; otherwise the trimmed text is appended and the box is cleared |
| FormPublicator.Publication.HandleRemoveService | src/pages/Forms/publicator/formPublicator.tsx:79-84 | the extra services become those not equal to the given one, in order |
| FormPublicator.Publication.HandleImageUpload | src/pages/Forms/publicator/formPublicator.tsx:86-92 | the images become `AfterUpload` of the old images, and at most ten are held |
| FormPublicator.Publication.HandleRemoveImage | src/pages/Forms/publicator/formPublicator.tsx:94-98 | the images become the old list with `splice(index, 1)` applied, including its negative and out-of-range index rules |
| FormPublicator.Publication.CanPublish | src/pages/Forms/publicator/formPublicator.tsx:456-465 | the publish button is enabled exactly when every text input is filled |
| FormPublicator.Publication.AddServiceDisabled | src/pages/Forms/publicator/formPublicator.tsx:327 | the add button is disabled exactly when the box is all whitespace |
| FormPublicator.Publication.UploadDisabled | src/pages/Forms/publicator/formPublicator.tsx:364 | the upload input is disabled exactly when ten or more images are held, which with the invariant means exactly ten |
| RoomAdministrator.FilteredRoomsExactly | src/pages/administrator/RoomAdministrator.tsx:211-213 | a room is listed exactly when it is held and passes the filter, and as often as it is held |
| RoomAdministrator.FilteredRoomsKeepOrder | src/pages/administrator/RoomAdministrator.tsx:211-213 | filtering keeps the list's order |
| RoomAdministrator.StatusCountsAddUp | src/pages/administrator/RoomAdministrator.tsx:211-213 | the three status counts sum to the "all" count |
| RoomAdministrator.SeedHasOneRoomPerStatus | src/pages/administrator/RoomAdministrator.tsx:85-161 | the starting list has three rooms, one per status |
| RoomAdministrator.ToggleTwiceRestores | src/pages/administrator/RoomAdministrator.tsx:166-171 | toggling a room twice shows every expander as before |
| RoomAdministrator.DeleteRemovesOnlyThatId | src/pages/administrator/RoomAdministrator.tsx:195 | after deletion no room has that id, and every other room keeps its count |
| RoomAdministrator.DeleteUniqueShortensByOne | src/pages/administrator/RoomAdministrator.tsx:195 | deleting a room whose id is unique removes just that room, keeping the others in order |
| RoomAdministrator.Dashboard.constructor | src/pages/administrator/RoomAdministrator.tsx:83-164 | filter "all", nothing expanded, the three starting rooms, dialog closed, nothing selected |
| RoomAdministrator.Dashboard.ToggleServices | src/pages/administrator/RoomAdministrator.tsx:166-171 | flips only the given room's expander; a room never toggled counts as collapsed, so its first toggle opens it |
| RoomAdministrator.Dashboard.HandleEdit | src/pages/administrator/RoomAdministrator.tsx:184-186 | no state changes |
| RoomAdministrator.Dashboard.HandleDeleteClick | src/pages/administrator/RoomAdministrator.tsx:188-191 | the room becomes selected and the dialog opens |
| RoomAdministrator.Dashboard.HandleDeleteConfirm | src/pages/administrator/RoomAdministrator.tsx:193-199 | with a selection, every room with its id is removed; without one, the rooms stay; the dialog closes and the selection is cleared |
| RoomAdministrator.Dashboard.HandleDeleteCancel | src/pages/administrator/RoomAdministrator.tsx:201-204 | the dialog closes, the selection is cleared and the rooms stay |
| RoomAdministrator.Dashboard.SetFilter | src/pages/administrator/RoomAdministrator.tsx:268-293 | the filter becomes the chosen button's value |
| RoomAdministrator.Dashboard.ShownRooms | src/pages/administrator/RoomAdministrator.tsx:211-213 | the shown list is exactly `FilteredRooms` of the held rooms and the filter, so that `FilteredRoomsExactly` and `FilteredRoomsKeepOrder` apply: every held room of the chosen status is shown, in order and as often as held; under "all" it is the held list; it is never longer than the held list, and its length is the header count |
| RegisterForm.FormGet | src/pages/Forms/RegisterForm.tsx:42-48 | `null` exactly when no entry has the name; otherwise the value of the first entry with that name |
| RegisterForm.FormGetIgnoresOtherNames | src/pages/Forms/RegisterForm.tsx:42-48 | an entry under another name does not change a lookup |
| RegisterForm.FormGetFirstWins | src/pages/Forms/RegisterForm.tsx:42-48 | entries after the first one with a name never change its lookup |
| RegisterForm.Submission | src/pages/Forms/RegisterForm.tsx:37-66 | refused with the terms message exactly when `acceptTerms` is not 'on'; otherwise the sent record is the five form fields plus the selected role, without `acceptTerms` |
| RegisterForm.RoleFieldIsIgnored | src/pages/Forms/RegisterForm.tsx:45 | a form field called `rol` does not change the outcome: the role comes from the selection |
| RegisterForm.TermsGate | src/pages/Forms/RegisterForm.tsx:48-54 | a missing terms box or any value other than 'on' is refused; 'on' is accepted |
| RegisterForm.Registration.constructor | src/pages/Forms/RegisterForm.tsx:35 | the role starts as Estudiante |
| RegisterForm.Registration.HandleRoleChange | src/pages/Forms/RegisterForm.tsx:68-75 | a cleared selection leaves the role as it was; a role sets it |

## Left out

- I/O is not modelled: `fetch`, `response.json()`, `localStorage`, `console` logging, `alert` and `URL.createObjectURL`. The provider and backend are function parameters and the stored token is a parameter, so the model does not capture timing or side effects.
- `async` sequencing: each service call is one step, and no interleaving of calls is modelled.
- URL text is not built. The base URLs, the default provider token, percent-encoding (`encodeURIComponent`, `URLSearchParams.toString`) and the `&token=` suffix become the structured `Endpoint` or the query pair list.
- JSON serialisation of request bodies: a body is the value that would be serialised.
- Unicode case folding: validation takes `lower` as a parameter. `Text.LatinLower` covers only Basic Latin and Latin-1 capitals and serves the worked examples.
- `Text.IntToString`: renders integers only. It does not model JavaScript's exponent form at 10^21 or above, nor non-integral numbers, for page, limit, filter values and the provider error code.
- Copomex.ValidarDireccion: the catch branch (copomexService.ts:212-217) is left out. It fires when a record field the validation reads is `null` or of the wrong type: `estado`, `municipio` or `ciudad` without `toLowerCase`, an `asentamiento` that is not an array, or a `null` entry in it. The model's records always hold strings and a list of strings, so that error result ('Error al validar la dirección') is not modelled.
- Copomex.AutocompletarDireccion: the catch branch (copomexService.ts:159-162) is left out because nothing before it can throw. `getInfoCodigoPostal` catches every error itself, and reading a missing field gives `undefined` rather than an exception.
- The dashboard's `formatDate` and `price.toLocaleString`, and `getStatusIcon`, are locale formatting and presentation.
- The publish button of the publication form has no handler in the source, so nothing happens on publishing. The form's previews and layout are presentation.
- `RegisterForm.Submission` takes the selected role as an argument instead of reading the class field. The alert that shows the submitted record as JSON is I/O.
- `FormData.get` returns file entries too. The model's form entries are text only.
- Contexts such as the home pages, navigation bars, cards, profile, plans and payments are presentational components and are not part of this model.
