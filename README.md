# Vehicle stock manager — a Dafny model of its core logic

The system is a small vehicle-inventory application. A React front end lets a dealer
register a vehicle with photos (`CadastroVeiculo`) and view it, change its status or delete
it (`DetalhesVeiculo`). An Express back end stores vehicles in Supabase and their photos in
Google Drive folders (`GoogleDriveService`). Most of it is CRUD glue. This project models the
parts that carry logic of their own and proves what they promise:

- `km_format.dfy` (module `KmFormat`): `unformatNumber` and `formatKm`, the mileage helpers
  of the create page.
- `create_form.dfy` (module `CreateForm`): the create page's state as class `CreatePage`,
  with fields `formData` and `fotos`. It covers:
  - the change handlers;
  - the photo cap of 15 and removal by index;
  - the minimum of 3 photos at submit;
  - the `FormData` body that submission builds, by two loops in `Serialize`.
- `vehicle_detail.dfy` (module `VehicleDetail`):
  - the detail page's photo carousel, as class `Gallery`;
  - the status badge;
  - the status actions offered for each status;
  - the confirmation that guards the status update and the deletion.
- `drive_naming.dfy` (module `DriveNaming`): the Drive adapter's pure rules. These are:
  - the compact timestamp;
  - the folder name;
  - the category's parent folder;
  - the photo file name;
  - the public URL;
  - the listing map.
- `drive_service.dfy` (module `DriveService`): the adapter's create-then-make-public
  sequences, run against an abstract Drive. The Drive is a class holding a map from object id
  to stored object.
- `delete_workflow.dfy` (module `DeleteWorkflow`): the `DELETE /api/veiculos/:id` handler.
  It runs against an abstract database and Drive, as class `Backend`.
- `basics.dfy` (module `Basics`): `Option`, `Result`, the uploaded `File`, and the
  JavaScript notion of a digit.

Inputs stand in for whatever the source gets from outside:
- the clock's ISO text;
- the environment variables;
- the id Drive assigns to a new object;
- whether each remote call succeeds;
- whether the user confirms a dialog;
- whether the create request succeeds.

Two points about the code shape the model:

- The detail page offers only some targets from each status. `OfferedTargets` models what
  the page offers; the server-side status update is not part of this model.
- The delete handler calls `deleteVehicleFolder`, a method the Drive adapter in
  `backend/googleDrive.js` does not define. As written, the call therefore always throws, and
  the handler swallows the error. The model makes the outcome of that call an input
  (`driveOk`), so both the working and the failing cleanup are covered.

## Model

| member | source | states |
|---|---|---|
| KmFormat.UnformatNumber | frontend/src/pages/CadastroVeiculo.jsx:41-43 | the result consists only of ASCII digits and is no longer than the input |
| KmFormat.UnformatAppend | frontend/src/pages/CadastroVeiculo.jsx:41-43 | reading the input left to right, each digit is kept in order and every other character is dropped, which characterises `unformatNumber` completely |
| KmFormat.UnformatConcat | frontend/src/pages/CadastroVeiculo.jsx:41-43 | keeping the digits distributes over concatenation |
| KmFormat.UnformatOfDigits | frontend/src/pages/CadastroVeiculo.jsx:41-43 | a digit-only string comes back unchanged |
| KmFormat.UnformatIdempotent | frontend/src/pages/CadastroVeiculo.jsx:41-43 | unformatting twice equals unformatting once |
| KmFormat.StripDots | frontend/src/pages/CadastroVeiculo.jsx:20-43 | the text with its dots removed holds no dot (the inverse direction of the grouping) |
| KmFormat.DottedLength | frontend/src/pages/CadastroVeiculo.jsx:24 | the grouped text of n digits has exactly n + (n-1)/3 characters, one dot per complete group of three after the first group |
| KmFormat.Dotted | frontend/src/pages/CadastroVeiculo.jsx:24 | inserting the thousands dots never shortens the digits |
| KmFormat.Separator | frontend/src/pages/CadastroVeiculo.jsx:24 | after a digit comes either nothing or a single dot, and a dot only when at least three digits follow |
| KmFormat.FormatKm | frontend/src/pages/CadastroVeiculo.jsx:20-25 | the display is empty exactly when the input holds no digit, and is never shorter than the digits |
| KmFormat.DottedShort | frontend/src/pages/CadastroVeiculo.jsx:24 | up to three digits get no separator |
| KmFormat.SeparatorShift | frontend/src/pages/CadastroVeiculo.jsx:24 | whether a dot follows the first digit depends only on the remaining length modulo three |
| KmFormat.DottedHead | frontend/src/pages/CadastroVeiculo.jsx:24 | one step of the left-to-right scan: the first digit, then a dot when a positive multiple of three digits follows, then the rest |
| KmFormat.DottedAppend | frontend/src/pages/CadastroVeiculo.jsx:24 | three more digits at the end become a final group behind a dot |
| KmFormat.DottedSplit | frontend/src/pages/CadastroVeiculo.jsx:24 | grouping works from the right: the last three digits follow a dot and the grouped rest |
| KmFormat.StripDotted | frontend/src/pages/CadastroVeiculo.jsx:24 | removing the inserted dots gives back the digit string |
| KmFormat.StripDotsConcat | frontend/src/pages/CadastroVeiculo.jsx:24 | removing dots distributes over concatenation |
| KmFormat.UnformatDotted | frontend/src/pages/CadastroVeiculo.jsx:20-43 | unformatting a grouped digit string gives back the digit string |
| KmFormat.FormatKmStripsToDigits | frontend/src/pages/CadastroVeiculo.jsx:20-25 | removing the dots of `formatKm(v)` yields `unformatNumber(v)`: no digit is lost, added or reordered |
| KmFormat.UnformatFormatKm | frontend/src/pages/CadastroVeiculo.jsx:20-43 | `unformatNumber(formatKm(v)) == unformatNumber(v)` |
| KmFormat.FormatKmIdempotent | frontend/src/pages/CadastroVeiculo.jsx:20-25 | `formatKm(formatKm(v)) == formatKm(v)` |
| KmFormat.DottedGrouped | frontend/src/pages/CadastroVeiculo.jsx:24 | a non-empty digit string is shown as a first group of 1-3 digits, then groups of a dot and exactly three digits |
| KmFormat.GroupedAppend | frontend/src/pages/CadastroVeiculo.jsx:24 | a final group of three digits behind a dot keeps the grouped shape |
| KmFormat.GroupedShape | frontend/src/pages/CadastroVeiculo.jsx:22-24 | the grouped shape has no leading or trailing dot and no two adjacent dots, and holds only digits and dots |
| KmFormat.FormatKmShape | frontend/src/pages/CadastroVeiculo.jsx:22-24 | for any input, the display is empty when there are no digits and otherwise in the grouped shape |
| CreateForm.InitialForm | frontend/src/pages/CadastroVeiculo.jsx:51-80 | the initial record has exactly the 28 keys, `opcionais` is an empty list and `cor` is `Branco` |
| CreateForm.ValueOf | frontend/src/pages/CadastroVeiculo.jsx:83-86 | a checkbox stores its checked state as a boolean; any other input stores its text; never a list |
| CreateForm.Without | frontend/src/pages/CadastroVeiculo.jsx:119 | the filtered list has no occurrence of the option, every other option keeps its membership, and the list gets no longer |
| CreateForm.Toggle | frontend/src/pages/CadastroVeiculo.jsx:118-120 | the option is present afterwards exactly when it was absent before |
| CreateForm.WithoutConcat | frontend/src/pages/CadastroVeiculo.jsx:119 | filtering distributes over concatenation |
| CreateForm.WithoutAbsent | frontend/src/pages/CadastroVeiculo.jsx:119 | filtering out an absent option changes nothing |
| CreateForm.ToggleKeepsOthers | frontend/src/pages/CadastroVeiculo.jsx:116-123 | toggling leaves the other options exactly as they were, including their relative order |
| CreateForm.ToggleTwice | frontend/src/pages/CadastroVeiculo.jsx:116-123 | toggling an absent option twice restores the list exactly; for a present one, its duplicates go and it moves to the end |
| CreateForm.FilterIndex | frontend/src/pages/CadastroVeiculo.jsx:164 | the filter drops one element exactly when the index falls inside the visited positions, and none otherwise |
| CreateForm.DropIndex | frontend/src/pages/CadastroVeiculo.jsx:164 | the list gets one shorter for an index in range and keeps its length otherwise |
| CreateForm.FilterIndexSplice | frontend/src/pages/CadastroVeiculo.jsx:164 | the index filter removes exactly the element at that index, or nothing when the index is outside the list |
| CreateForm.DropIndexSpec | frontend/src/pages/CadastroVeiculo.jsx:163-166 | removing at an index in range gives the list without that element, one shorter and in order; an index out of range leaves it unchanged |
| CreateForm.JsonEscapeChar | frontend/src/pages/CadastroVeiculo.jsx:188 | a plain character is written as itself; a quote, backslash or control character becomes an escape of at most six characters starting with a backslash |
| CreateForm.JsonEscape | frontend/src/pages/CadastroVeiculo.jsx:188 | the escaped text is at least as long as the text and at most six times as long, and holds no quote when the text has no quote or backslash |
| CreateForm.JsonQuote | frontend/src/pages/CadastroVeiculo.jsx:188 | a JSON string literal starts and ends with a quote around at least the text's length |
| CreateForm.JsonItems | frontend/src/pages/CadastroVeiculo.jsx:188 | the comma-separated items are empty exactly for no options, and otherwise start and end with a quote |
| CreateForm.JsonOf | frontend/src/pages/CadastroVeiculo.jsx:188 | a list is written between brackets and is `[]` exactly when empty; a text is written as a quoted literal |
| CreateForm.TextOf | frontend/src/pages/CadastroVeiculo.jsx:186-201 | `FormData` text of a value: a text is sent as is, a boolean as `true` or `false` by its value, and a list is empty exactly when it has no item or only an empty item |
| CreateForm.CorFinal | frontend/src/pages/CadastroVeiculo.jsx:190 | the sent colour is `cor` or `cor_outro`; it differs from `cor` only when `cor` is `Outro` |
| CreateForm.EntryFor | frontend/src/pages/CadastroVeiculo.jsx:186-201 | a key appends at most one entry, under that key, never a file, and a price entry exactly for `preco` |
| CreateForm.FieldEntries | frontend/src/pages/CadastroVeiculo.jsx:186-201 | the key loop appends at most one entry per key |
| CreateForm.JsonEscapePlain | frontend/src/pages/CadastroVeiculo.jsx:188 | option text without quotes, backslashes or control characters is written by `JSON.stringify` unchanged |
| CreateForm.PhotoEntries | frontend/src/pages/CadastroVeiculo.jsx:207-209 | one `fotos` entry per photo, in list order |
| CreateForm.KeysOfConcat | frontend/src/pages/CadastroVeiculo.jsx:186-209 | the keys of appended entries are the keys of the parts, appended |
| CreateForm.KeysOfEntryFor | frontend/src/pages/CadastroVeiculo.jsx:186-201 | a key produces one entry under that key, or none when it is one of the four never sent |
| CreateForm.EntryForShape | frontend/src/pages/CadastroVeiculo.jsx:186-201 | a key yields no entry exactly when it is never sent, and otherwise one entry under that key |
| CreateForm.FieldEntriesKeys | frontend/src/pages/CadastroVeiculo.jsx:186-201 | the field entries carry the sent keys in key order, one each |
| CreateForm.FieldEntriesAreFor | frontend/src/pages/CadastroVeiculo.jsx:186-201 | every field entry is the one its key calls for, and every sent key has its entry |
| CreateForm.SentKeysMembers | frontend/src/pages/CadastroVeiculo.jsx:198 | a key is sent exactly when it is in the record and not one of `cor_outro`, `tem_outros_opcionais`, `quilometragem_display`, `preco_display` |
| CreateForm.SerializedKeys | frontend/src/pages/CadastroVeiculo.jsx:186-201 | the serialised keys of the form are all its keys except the four never sent, in `Object.keys` order |
| CreateForm.CorSent | frontend/src/pages/CadastroVeiculo.jsx:189-198 | `cor` is sent once, carrying `cor_outro` exactly when `cor` is `Outro`, and no unsent key appears |
| CreateForm.FieldEntriesStep | frontend/src/pages/CadastroVeiculo.jsx:186-201 | one iteration of the key loop appends the entry of the next key |
| CreateForm.FieldOrderInForm | frontend/src/pages/CadastroVeiculo.jsx:186 | every key `Object.keys` visits is a key of the form record, `cor` and `cor_outro` included |
| CreateForm.Serialize | frontend/src/pages/CadastroVeiculo.jsx:180-209 | the two loops build the field entries in key order, followed by the photo entries in list order |
| CreateForm.CreatePage.constructor | frontend/src/pages/CadastroVeiculo.jsx:49-80 | the page starts with the initial record and no photos |
| CreateForm.CreatePage.HandleChange | frontend/src/pages/CadastroVeiculo.jsx:82-88 | the named field takes the checkbox state or the typed text, and nothing else changes |
| CreateForm.CreatePage.HandleKmChange | frontend/src/pages/CadastroVeiculo.jsx:91-101 | mileage becomes the typed digits and the display becomes `formatKm` of the input; unformatting the display gives the stored mileage; no other field changes |
| CreateForm.CreatePage.HandlePrecoChange | frontend/src/pages/CadastroVeiculo.jsx:104-114 | the price becomes the typed digits and the display takes the given text; no other field changes |
| CreateForm.CreatePage.HandleOpcionaisChange | frontend/src/pages/CadastroVeiculo.jsx:116-123 | `opcionais` becomes its toggle, and the option is present exactly when it was absent before |
| CreateForm.CreatePage.HandleFotosChange | frontend/src/pages/CadastroVeiculo.jsx:125-133 | a batch is accepted exactly when the list stays within 15, and then all files are appended in order; otherwise nothing changes |
| CreateForm.CreatePage.HandleCameraCapture | frontend/src/pages/CadastroVeiculo.jsx:145-154 | a capture is appended exactly when a file was taken and fewer than 15 photos are held; otherwise nothing changes |
| CreateForm.CreatePage.RemoverFoto | frontend/src/pages/CadastroVeiculo.jsx:163-166 | only the photo at the index goes, the rest keep their order; an out-of-range index changes nothing |
| CreateForm.CreatePage.HandleSubmit | frontend/src/pages/CadastroVeiculo.jsx:168-260 | fewer than 3 photos send nothing; otherwise the serialised body is sent, and a successful post resets the form and photos |
| VehicleDetail.PrevIndex | frontend/src/pages/DetalhesVeiculo.jsx:99 | from an index in range, the left arrow stays in range |
| VehicleDetail.NextIndex | frontend/src/pages/DetalhesVeiculo.jsx:105 | from an index in range, the right arrow stays in range |
| VehicleDetail.PrevNextInverse | frontend/src/pages/DetalhesVeiculo.jsx:96-109 | `next(prev(i)) == i` and `prev(next(i)) == i` |
| VehicleDetail.ArrowsAreModular | frontend/src/pages/DetalhesVeiculo.jsx:99-105 | the arrows add and subtract one modulo the photo count |
| VehicleDetail.NextTimes | frontend/src/pages/DetalhesVeiculo.jsx:105 | any number of right-arrow clicks from an index in range stays in range |
| VehicleDetail.NextTimesAdd | frontend/src/pages/DetalhesVeiculo.jsx:105 | a + b clicks on the right arrow are a clicks followed by b clicks |
| VehicleDetail.NextTimesAdvance | frontend/src/pages/DetalhesVeiculo.jsx:105 | before the wrap, k clicks advance by exactly k |
| VehicleDetail.NextReaches | frontend/src/pages/DetalhesVeiculo.jsx:105 | from any photo, every photo is reached after fewer clicks on the right arrow than there are photos |
| VehicleDetail.NextCycle | frontend/src/pages/DetalhesVeiculo.jsx:105 | n clicks return to the start, and every photo is reached in fewer than n clicks |
| VehicleDetail.Gallery.constructor | frontend/src/pages/DetalhesVeiculo.jsx:10 | the carousel starts at the first photo |
| VehicleDetail.Gallery.Previous | frontend/src/pages/DetalhesVeiculo.jsx:96-103 | the index moves one back with wrap-around, stays in range, and the right arrow undoes it |
| VehicleDetail.Gallery.Next | frontend/src/pages/DetalhesVeiculo.jsx:104-109 | the index moves one forward with wrap-around, stays in range, and the left arrow undoes it |
| VehicleDetail.Gallery.Select | frontend/src/pages/DetalhesVeiculo.jsx:112-131 | a dot or thumbnail jumps to its photo |
| VehicleDetail.OfferedTargets | frontend/src/pages/DetalhesVeiculo.jsx:274-315 | no status offers itself, only the three statuses are offered, and exactly the three statuses offer anything; `disponivel` and `reservado` both offer `vendido`, `reservado` and `vendido` both offer `disponivel`, and `reservado` is offered only from `disponivel` |
| VehicleDetail.OfferedGraph | frontend/src/pages/DetalhesVeiculo.jsx:274-315 | `vendido` offers only `disponivel`; every status reaches every other directly or through `disponivel` |
| VehicleDetail.Badge | frontend/src/pages/DetalhesVeiculo.jsx:154-158 | green exactly for `disponivel`, yellow exactly for `reservado`, red for any other value |
| VehicleDetail.AtualizarStatus | frontend/src/pages/DetalhesVeiculo.jsx:36-40 | a status update request is issued exactly when the dialog is confirmed, and it carries the id and the new status |
| VehicleDetail.DeletarVeiculo | frontend/src/pages/DetalhesVeiculo.jsx:49-53 | a delete request is issued exactly when the dialog is confirmed, and it carries the id |
| DriveNaming.StripIsoSeparators | backend/googleDrive.js:24 | the result holds none of `-`, `:`, `T`, `.` and is no longer than the input |
| DriveNaming.Take | backend/googleDrive.js:24 | `slice(0, n)` is the prefix of length min(n, length) |
| DriveNaming.CompactTimestamp | backend/googleDrive.js:24 | the timestamp has at most 14 characters and no separator |
| DriveNaming.StripConcat | backend/googleDrive.js:24 | removing separators distributes over concatenation |
| DriveNaming.StripPlain | backend/googleDrive.js:24 | text without separators is unchanged |
| DriveNaming.DigitsHaveNoSeparators | backend/googleDrive.js:24 | digits are never separators |
| DriveNaming.StripAppendPlain | backend/googleDrive.js:24 | appending separator-free text survives the removal unchanged |
| DriveNaming.StripAppendSeparator | backend/googleDrive.js:24 | appending one separator adds nothing |
| DriveNaming.CompactTimestampOfIso | backend/googleDrive.js:24 | for a standard `YYYY-MM-DDTHH:mm:ss.sssZ` string the timestamp is `YYYYMMDDHHmmss` |
| DriveNaming.VersaoText | backend/googleDrive.js:25 | `versao || ''`: an absent trim level contributes empty text, a present one its text |
| DriveNaming.TrimStart | backend/googleDrive.js:25 | only leading white space is removed, and the result does not start with white space |
| DriveNaming.TrimEnd | backend/googleDrive.js:25 | only trailing white space is removed, and the result does not end with white space |
| DriveNaming.Trim | backend/googleDrive.js:25 | the result is one slice of the text with only white space before and after it, and it neither starts nor ends with white space |
| DriveNaming.TrimUnique | backend/googleDrive.js:25 | any slice with only white space around it and none at its ends is the trimmed text, so the two properties of `Trim` determine it |
| DriveNaming.TrimUnpadded | backend/googleDrive.js:25 | text that neither starts nor ends with white space is left as it is |
| DriveNaming.FolderName | backend/googleDrive.js:25 | the folder name is the five parts joined by single spaces with only the outer white space removed; it neither starts nor ends with white space and is at most the five parts plus four spaces long |
| DriveNaming.FolderNameJoined | backend/googleDrive.js:25 | the name is the five parts joined by single spaces; an absent or empty `versao` leaves a double space between model and year |
| DriveNaming.FolderNameAt | backend/googleDrive.js:24-25 | at a standard ISO instant, the name ends with the 14 timestamp digits |
| DriveNaming.ParentFolders | backend/googleDrive.js:4-9 | the map has exactly the four categories as keys, each holding its variable's value when set and nothing otherwise |
| DriveNaming.ParentFolderId | backend/googleDrive.js:27-31 | the lookup succeeds exactly for one of the four categories whose variable is set and non-empty, returning that value; otherwise it fails with the category named |
| DriveNaming.AfterLastDot | backend/googleDrive.js:58 | the extension is a dot-free suffix of the name, preceded by a dot whenever it is not the whole name |
| DriveNaming.AfterLastDotWhole | backend/googleDrive.js:58 | a name without a dot is its own extension |
| DriveNaming.AfterLastDotSplit | backend/googleDrive.js:58 | the extension is the text after the last dot |
| DriveNaming.NatToString | backend/googleDrive.js:58 | the position is written as a non-empty string of digits |
| DriveNaming.DigitsValueOfNatToString | backend/googleDrive.js:58 | the written position reads back as the same number |
| DriveNaming.FotoName | backend/googleDrive.js:58 | the name starts with `foto_`, followed by the decimal text of the position, a dot and the original name's extension, and nothing else |
| DriveNaming.DotSplitUnique | backend/googleDrive.js:58 | a dot-free prefix before a dot is determined by the whole text |
| DriveNaming.FotoStemHasNoDot | backend/googleDrive.js:58 | the part of a photo name before the extension holds no dot |
| DriveNaming.FotoNameDistinct | backend/googleDrive.js:58 | photos at different positions get different file names |
| DriveNaming.PhotoUrl | backend/googleDrive.js:83 | the direct-view URL is the fixed prefix followed by exactly the id |
| DriveNaming.PhotoUrlRoundTrip | backend/googleDrive.js:83 | the direct-view URL gives back exactly the id it was built from |
| DriveNaming.PhotoInfos | backend/googleDrive.js:95-99 | the listing keeps length and order, copies each id and name, and each URL names that file's id |
| DriveService.Drive.FilesCreate | backend/googleDrive.js:39-42 | a successful create stores the object under the assigned id and returns it; a failed one changes nothing |
| DriveService.Drive.MakePublic | backend/googleDrive.js:45-51 | a granted permission makes exactly that object public; a failure changes nothing |
| DriveService.PublishCreated | backend/googleDrive.js:39-51 | creating an object and then granting public read leaves it stored with `publicRead` exactly when the grant went through |
| DriveService.GoogleDriveService.CreateVehicleFolder | backend/googleDrive.js:23-54 | an unknown or unset category fails before anything is created; otherwise the named folder is created under the parent and made public, and the same id is returned exactly when the permission was granted |
| DriveService.GoogleDriveService.UploadPhoto | backend/googleDrive.js:56-86 | the file is stored in the folder as `foto_<ordem>.<ext>` with its type and bytes, made public, and its direct-view URL is returned; that URL names the assigned id |
| DriveService.GoogleDriveService.ListFolderPhotos | backend/googleDrive.js:88-100 | a failed listing propagates; otherwise one entry per file in the same order, with id, name and URL of that file |
| DeleteWorkflow.RowsNotOf | backend/server.js:15-21 | after the cascade, exactly the photo rows of other vehicles remain |
| DeleteWorkflow.HasFolder | backend/server.js:24 | the folder id is truthy exactly when it is present and not the empty text |
| DeleteWorkflow.RowsNotOfUntouched | backend/server.js:15-21 | the cascade removes nothing when the vehicle has no photos |
| DeleteWorkflow.RowsNotOfCommute | backend/server.js:15-21 | deleting two vehicles in either order leaves the same photo rows in the same order |
| DeleteWorkflow.Backend.constructor | backend/server.js:1-38 | the store starts with the given tables and folders and an empty call log |
| DeleteWorkflow.Backend.DeleteVeiculo | backend/server.js:1-38 | a failed lookup answers 500 and changes nothing. A failed row deletion answers 500 after the lookup, and Drive is never called. Otherwise the row and its photo rows are gone, and the folder deletion is attempted after the row deletion only for a truthy folder id. The answer is success whether or not Drive succeeds. |

## Left out

- `formatMoney`, the price display and the price sent as `(parseInt(preco)/100).toFixed(2)` are floating point and locale formatting. `HandlePrecoChange` takes the display text as an input, and the price part carries the digits it is computed from.
- `FileReader` previews (`previewFotos`) are asynchronous callbacks whose completion order is not fixed, so they are not modelled.
- The upload-progress percentages, the loading flag, the alerts and the navigation after a request are not modelled.
- All JSX rendering, routing, `App.jsx` and `ListaVeiculos.jsx` are display and request plumbing.
- `supabase.js` and `db.js` only construct clients from the environment, so they are not modelled.
- The Google Drive and Supabase client libraries are not modelled. Their calls are abstract effects whose outcomes are inputs.
- The query, filter and ordering of the Drive listing belong to the service, so the listing is taken as given.
- The create, list, fetch and status-update endpoints of the back end are not part of this model.
- ParentFolderId: JavaScript object lookup also finds inherited names such as `constructor`, which would pass the truthiness check. The model treats only the four categories as keys.
- FolderName: a `marca`, `modelo` or `ano` that is `undefined` would be interpolated as the text `undefined`. The model takes every part as text.
- CompactTimestampOfIso: covers only four-digit years. `toISOString` writes years outside 0-9999 with a sign and six digits.
- DeleteVeiculo: does not model the `deleteVehicleFolder` implementation. That method is not part of this model, so its outcome is the input `driveOk`.
- The status update request (`PATCH`) and the vehicle reload after it are left out: only the request the confirmation guards is modelled.
