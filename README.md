# scib-front, modelled in Dafny

A model of the logic of the scib-front Angular front-end. The app lists people
from a REST backend. It creates a person from a two-field form plus a
spreadsheet dropped or picked by the user. It deletes people from a table.

The model has one module per source file, plus three helper modules:

- `Api` (`api.service.ts`): the generic REST client `ApiService<T>`. It is a
  class with a constant `apiUrl` and a mutable `basePath`, changed only by
  `SetConfig`. Each verb is a function that builds a request descriptor: the
  verb, the URL, the headers, the body and the query parameters.
- `People` (`people.service.ts`): the `Person` record and `PeopleService`.
  Its constructor points the service at `/people`. `CreatePersonWithFile`
  fills a multipart form with three appends and posts it.
- `DataTable` (`data-table.component.ts`): the data-table component as a class.
  `NgOnInit` computes the displayed columns and shows the bound rows.
  `NgOnChanges` replaces the rows wholesale.
- `App` (`app.component.ts`): the root component as a class. It holds the
  fields `isDragging`, `selectedFile`, the form's controls and `tableData`.
  The HTTP client is a log `sent` of issued requests. Responses come back
  through explicit callback methods (`OnListSuccess`, `OnCreateSuccess`,
  `OnDeleteError`, …). Snackbar messages are recorded in `notices`.
  `console.error` calls are counted in `errorsLogged`.
- `Http`: request descriptors, flat records (rows and JSON bodies), files
  and form data.
- `Text`: how JavaScript renders an integer in a template literal (for
  integers of magnitude at most 2^53), and the parsing that reads a
  URL back.
- `Wrappers`: `Option`.

The URL builders are specified by their inverse. `ResourcePath` strips
`apiUrl + basePath` from a URL, and every builder promises what remains. For
`delete`, a numeric identifier is proved recoverable from the URL's last
segment. This relies on a round-trip proof for decimal rendering.

Points where the code's behaviour is easy to misread; the model follows the code:

- A rejected file keeps the previous `selectedFile`. It does not clear it.
- `setConfig` may be called any number of times. The last call wins.
- `userForm.reset()` sets the controls to `null`, not to `''`. This is why a
  reset form fails `Validators.required`.
- `ngOnChanges` reads `changes['data'].currentValue`. This throws when the
  data input is not among the changes. The model reports that as `threw`
  and changes nothing.

The environment's `apiUrl` is a constructor parameter of `ApiService` and
`PeopleService`.

## Model

| member | source | states |
|---|---|---|
| `Text.DecimalText` | src/app/shared/api.service.ts:80 | `${id}` for an integer of magnitude at most 2^53: non-empty, digits only, a leading '-' exactly for negatives, no leading zero (canonical form), and no '/' |
| `Text.NatDigits` | src/app/shared/api.service.ts:80 | the digits of a natural number: non-empty, all decimal digits, "0" for zero and no leading zero otherwise, no '/' |
| `Text.DecimalTextRoundTrip` | src/app/shared/api.service.ts:80 | parsing the rendered integer gives the integer back |
| `Text.DecimalTextInjective` | src/app/shared/api.service.ts:80 | distinct integer ids render to distinct texts |
| `Http.IdText` | src/app/shared/api.service.ts:80 | `${id}` for an id that is a string or a number: a string id is itself; a numeric id's text has no '/' and parses back to the id |
| `Http.TemplateText` | src/app/app.component.ts:223 | `${row.id}` for a field value: undefined and null give "undefined" and "null", a number's text parses back to it, a string is itself |
| `Api.ApiService.constructor` | src/app/shared/api.service.ts:20-23 | `apiUrl` is the environment's URL and `basePath` starts empty |
| `Api.ApiService.Headers` | src/app/shared/api.service.ts:25-27 | the headers are exactly the JSON content type |
| `Api.ApiService.FullPath` | src/app/shared/api.service.ts:29-31 | the full path is `basePath` followed by the endpoint, with an absent endpoint read as "" |
| `Api.ApiService.Url` | src/app/shared/api.service.ts:38 | the URL is `apiUrl + basePath` followed by the endpoint |
| `Api.ApiService.SetConfig` | src/app/shared/api.service.ts:33-35 | sets `basePath` to the config's path and changes nothing else (`apiUrl` is constant), so applying it twice equals applying it once |
| `Api.ApiService.List` | src/app/shared/api.service.ts:37-42 | GET to base + endpoint (absent means ""), with the JSON header, no body, and the params passed through |
| `Api.ApiService.Get` | src/app/shared/api.service.ts:44-49 | GET to base + endpoint, with the JSON header and the params passed through |
| `Api.ApiService.Post` | src/app/shared/api.service.ts:51-59 | POST to base + endpoint, with the JSON header and the body forwarded unchanged |
| `Api.ApiService.PostFormData` | src/app/shared/api.service.ts:61-66 | POST to base + endpoint, with the form data as the body and no explicit header |
| `Api.ApiService.Put` | src/app/shared/api.service.ts:68-76 | PUT to base + endpoint, with the JSON header and the body forwarded unchanged |
| `Api.ApiService.Delete` | src/app/shared/api.service.ts:78-83 | DELETE to base + endpoint + "/" + id, with the JSON header and no body |
| `Api.ApiService.Patch` | src/app/shared/api.service.ts:85-91 | PATCH to base + endpoint, with the JSON header and the body forwarded unchanged |
| `Api.UrlStartsWithApiUrlAndBasePath` | src/app/shared/api.service.ts:37-91 | every request URL starts with `apiUrl`, with `basePath` right after it |
| `Api.JsonHeaderUnlessMultipart` | src/app/shared/api.service.ts:37-91 | a request carries the JSON content type exactly when it is not the multipart POST |
| `Api.DeleteUrlNamesId` | src/app/shared/api.service.ts:78-83 | the last URL segment of a numeric delete parses back to the id |
| `Api.DeleteUrlInjective` | src/app/shared/api.service.ts:78-83 | two numeric deletes with the same URL delete the same id |
| `People.PersonFormData` | src/app/people.service.ts:21-25 | the payload has exactly the keys name, surname, excel, in that order, holding the person's name, surname and the file |
| `People.PayloadIgnoresIdAndExcel` | src/app/people.service.ts:5-10 | the payload does not depend on the person's `id` or `excel` |
| `People.PeopleService.constructor` | src/app/people.service.ts:16-19 | after construction the base path is "/people" |
| `People.PeopleService.CreatePersonWithFile` | src/app/people.service.ts:21-28 | the request built by three appends is the multipart POST of that payload, with no endpoint |
| `People.ListTargetsPeople` | src/app/people.service.ts:16-19 | `list()` targets `apiUrl + "/people"` |
| `People.CreateTargetsPeople` | src/app/people.service.ts:27 | a create is a POST to `apiUrl + "/people"` with no explicit header |
| `People.DeleteTargetsPerson` | src/app/people.service.ts:18 | `delete(id)` targets `apiUrl + "/people/" + id` |
| `DataTable.ColumnNames` | src/app/shared/components/data-table/data-table.component.ts:42 | `columns.map(c => c.name)`: one name per column, in the same order |
| `DataTable.DisplayedColumns` | src/app/shared/components/data-table/data-table.component.ts:42-45 | the column names in input order, then "actions" once at the end exactly when an action column is configured; length is columns + (1 or 0) |
| `DataTable.DataTableComponent.constructor` | src/app/shared/components/data-table/data-table.component.ts:31-38 | inputs start as [], [], {}; no columns are displayed and no rows are shown |
| `DataTable.DataTableComponent.BindInputs` | src/app/shared/components/data-table/data-table.component.ts:31-33 | the parent sets the three inputs and nothing else |
| `DataTable.DataTableComponent.NgOnInit` | src/app/shared/components/data-table/data-table.component.ts:40-46 | the shown rows are the `data` input, and the displayed columns are `DisplayedColumns` of the inputs |
| `DataTable.DataTableComponent.NgOnChanges` | src/app/shared/components/data-table/data-table.component.ts:52-56 | a present new value replaces the rows; a null one keeps them; a missing data change throws; the displayed columns are never touched |
| `App.IsExcelFile` | src/app/app.component.ts:120-126 | true exactly for the two spreadsheet MIME types |
| `App.ExcelCheckIgnoresName` | src/app/app.component.ts:120-126 | the file name never matters, so there is no extension fallback |
| `App.ExcelCheckExamples` | src/app/app.component.spec.ts:117-145 | test.xlsx with the xlsx type is accepted; test.txt with text/plain is rejected |
| `App.AcceptedFile` | src/app/app.component.ts:164-169 | a file list yields a file exactly when its first file is a spreadsheet, and then it is that file |
| `App.Filled` | src/app/app.component.ts:65 | `Validators.required` passes exactly when the value is neither null nor '' |
| `App.FormValid` | src/app/app.component.ts:59-74 | the form is valid exactly when both name and surname exist and are non-null and non-empty |
| `App.BuildForm` | src/app/app.component.ts:81-86 | the loop creates one control per configured field, each holding '', and no other control |
| `App.ResetForm` | src/app/app.component.ts:201 | reset keeps every control and sets each to null |
| `App.ResetFormInvalid` | src/app/app.component.ts:191-201 | a reset form fails validation |
| `App.Patched` | src/app/app.component.spec.ts:150 | patching updates existing controls only and keeps the form's keys |
| `App.SubmittedPerson` | src/app/app.component.ts:192-193 | the submitted person has no id and no excel, and for a valid form carries its non-empty name and surname |
| `App.CanSubmit` | src/app/app.component.ts:191 | submit proceeds exactly when name and surname are filled and a file is selected |
| `App.RowId` | src/app/app.component.ts:223 | the id sent for a row is its numeric id, or the text a template literal gives its id field |
| `App.TableShowsActions` | src/app/app.component.ts:40-51 | the bound table shows the five configured columns, then "actions" |
| `App.AppComponent.constructor` | src/app/app.component.ts:36-87 | initial state: empty name and surname controls (invalid), not dragging, no file, no rows, nothing sent |
| `App.AppComponent.ListRequest` | src/app/app.component.ts:109 | `peopleService.list()`: a GET to `apiUrl + basePath` with no body and no params |
| `App.AppComponent.NgOnInit` | src/app/app.component.ts:131-133 | issues exactly one list request |
| `App.AppComponent.OnListSuccess` | src/app/app.component.ts:108-110 | the rows become the response, verbatim; nothing else changes |
| `App.AppComponent.OnListError` | src/app/app.component.ts:111 | one error is logged and the rows stay |
| `App.AppComponent.OnDragOver` | src/app/app.component.ts:139-143 | `isDragging` becomes true and nothing else changes |
| `App.AppComponent.OnDragLeave` | src/app/app.component.ts:149-153 | `isDragging` becomes false and nothing else changes |
| `App.AppComponent.OnDrop` | src/app/app.component.ts:159-170 | dragging ends; an accepted first file is selected; otherwise the old selection stays |
| `App.AppComponent.OnFileSelected` | src/app/app.component.ts:176-184 | an accepted first file is selected; otherwise the old selection stays |
| `App.AppComponent.PatchValue` | src/app/app.component.spec.ts:150 | the form becomes the patched form; nothing else changes |
| `App.AppComponent.OnSubmit` | src/app/app.component.ts:190-197 | if the gate is open, exactly one create request carrying the form's name and surname and the selected file; otherwise nothing is sent |
| `App.AppComponent.OnCreateSuccess` | src/app/app.component.ts:198-212 | one list request, no selected file, a reset form that blocks resubmission, and the saved message |
| `App.AppComponent.OnCreateError` | src/app/app.component.ts:209 | one error is logged; the form and the file are kept |
| `App.AppComponent.HandleTableAction` | src/app/app.component.ts:221-223 | a delete of the row's id for "delete"; any other action sends nothing |
| `App.AppComponent.OnDeleteSuccess` | src/app/app.component.ts:224-226 | exactly one list refresh, then the deleted message |
| `App.AppComponent.OnDeleteError` | src/app/app.component.ts:225 | one error is logged |

## Left out

- HTTP transport and observables: requests are descriptors appended to a log. Responses are callback methods that any caller may invoke. They are not matched to an outstanding request. Overlapping requests and list races are not modelled.
- Query-string encoding of `HttpParams` (`?page=1&limit=10`) is done by the transport. A request keeps its params as a separate list.
- The generic response type `T` of `ApiService<T>`: it does not affect any request.
- `PeopleService extends ApiService<Person>` is modelled as composition (`PeopleService.api`), since the model has no inheritance.
- `FormData` is a value (a list of entries). The multipart body is compared by value, not by object identity.
- JSON bodies and table rows are flat records of null, boolean, integer and string values. Nested objects, arrays and non-integer numbers are not modelled.
- `Text.DecimalText`: equals JavaScript's `${n}` only for |n| <= 2^53. Ids are unbounded integers here. Above 2^53 JavaScript writes the shortest digits that read back to the same double, padded with zeros: `${2**60}` is "1152921504606847000", where the model gives "1152921504606846976". From 10^21 up, JavaScript switches to exponent form ("1e+21").
- `Http.IdText`: renders integer ids only; a fractional or exponent-form JavaScript number is not modelled.
- `App.RowId`: a row id holding an object or array would be rendered by JavaScript's object-to-string rules; rows hold scalars only here.
- DOM event plumbing is not modelled: `preventDefault`, `stopPropagation`, and clearing the file-input element after a create. Drop and pick events are reduced to their optional file list.
- Form status flags (`markAsUntouched`, `markAsPristine`) and the fields' labels are not modelled. The form is its control values plus the required validator.
- The snackbar is recorded only as the message text. `console.error` is recorded only as a count.
- `ngAfterViewInit` and the paginator wiring of the Material data source: UI library plumbing.
- The component's `title` and the template bindings.
