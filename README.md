# PDF uploader page: a Dafny model of its component state machines

The page puts two components side by side: an upload form and a file listing.
`Home` (src/app/page.js) owns one flag, `reload`. The upload component gets the
callback that sets this flag. The listing component gets the flag's value.

- **Upload** (`FileUpload.jsx`). It stages a selection of files. The
  selection is accepted only if every file is a PDF. Uploading posts the files
  as one multipart body under the field `files` and reports a whole-number
  percentage of progress. Success clears the selection and calls
  `reloadFiles`. Failure keeps the selection and shows either the server's
  message or a generic one.
- **Listing** (`FileListing.jsx`). It holds a query: a filename filter, a
  size filter of 1, 5 or 10 MB, and a page number. It also holds the result of
  the last list request. Changing a filter goes back to page 1; Clear Search
  does not. Rows are deleted in two steps: Delete, then Confirm Delete or
  Cancel. The list is fetched by two effects, one on every change of the
  query and one on every change of the reload prop to a truthy value, and
  directly by a delete answered with status 200.

Every network call is replaced by an outcome that the caller passes in. Each
request a component issues is appended to a ghost log `requests`. Toasts are
recorded as a sequence of messages. React's memory of each effect's last
dependencies is kept in the fields `queryDeps` and `reloadDeps`. `None` means
the component is not mounted yet. `RunEffects` models the commit that follows
a render.

The upload handler is async. It is modelled as the pieces between its
suspension points: `BeginUpload` (up to the POST), `OnUploadProgress` (the
transport callback) and `FinishUpload` (after the POST settles).
`HandleUpload` runs them in order.

Files: `common.dfy` (Option, Toast), `upload.dfy`, `listing.dfy`, `page.dfy`,
and `scenarios.dfy`. The last holds client methods that replay concrete
interactions using only the contracts.

Behaviour worth noting:

- The reload effect fetches only when the flag becomes truthy (FileListing.jsx:21-25). A change to false fetches nothing.
- A delete that throws clears only `deleting`. The filename stays pending confirmation (FileListing.jsx:82-85).
- Axios throws on statuses outside 2xx, so a delete reply is either a 2xx status or a thrown error (`SuccessStatus`). A 2xx reply other than 200 resets nothing, so `deleting` stays set (FileListing.jsx:76).

## Model

| member | source | states |
|---|---|---|
| `Upload.PdfFiles` | src/app/components/FileUpload.jsx:17-21 | The filter keeps exactly the PDF files of the selection. It is as long as the selection iff every file is a PDF, and then it equals the selection. |
| `Upload.PdfFilesOfConcat` | src/app/components/FileUpload.jsx:17-19 | Filtering a selection split in two gives the filtered halves in order: the filter keeps the PDF files in selection order. |
| `Upload.Percent` | src/app/components/FileUpload.jsx:54 | The progress value is the floor of loaded*100/total: p*total <= loaded*100 < (p+1)*total. |
| `Upload.PercentBounded` | src/app/components/FileUpload.jsx:54 | For loaded <= total the percentage is at most 100, and exactly 100 when everything has been sent. |
| `Upload.PercentMonotone` | src/app/components/FileUpload.jsx:54 | The percentage does not decrease as loaded grows. |
| `Upload.ProgressOfOneTransfer` | src/app/components/FileUpload.jsx:52-55 | Over the events of one transfer, the progress shown lies in 0..100 and never goes down from one event to a later one. |
| `Upload.BuildFormData` | src/app/components/FileUpload.jsx:42-45 | The body holds exactly the selected files, in order, each under the field name `files`. Reading the field back gives the selection. |
| `Upload.FailureNotice` | src/app/components/FileUpload.jsx:71-75 | The failure toast shows the server's response data when it is present and non-empty, otherwise the generic message. It is never empty. |
| `Upload.FileUpload.constructor` | src/app/components/FileUpload.jsx:6-10 | Initial state: no files, progress 0, not uploading, empty error and success. |
| `Upload.FileUpload.UploadDisabled` | src/app/components/FileUpload.jsx:104 | The Upload button is disabled while uploading or with nothing selected. |
| `Upload.FileUpload.HandleFileChange` | src/app/components/FileUpload.jsx:13-28 | An all-PDF selection replaces `files` in order and clears `error`. Any other selection empties `files` and sets "Only PDF files are allowed.". Nothing else changes. |
| `Upload.FileUpload.BeginUpload` | src/app/components/FileUpload.jsx:31-45 | Empty selection: only `error` becomes "Please select files first" and nothing is posted. Otherwise `isUploading` is set, `error` and `success` are cleared, and one body carrying the selection is posted. |
| `Upload.FileUpload.OnUploadProgress` | src/app/components/FileUpload.jsx:52-56 | Only `uploadProgress` changes, to the floor percentage of the event. |
| `Upload.FileUpload.FinishUpload` | src/app/components/FileUpload.jsx:59-75 | Success: not uploading, progress 0, the success message, no files, a success toast, and `reloadFiles` called once. Failure: not uploading, the generic error, files and progress kept, the failure notice toasted, and the page untouched. |
| `Upload.FileUpload.HandleUpload` | src/app/components/FileUpload.jsx:31-76 | The whole handler. With nothing selected it changes only `error` and posts nothing. Otherwise it posts exactly one body carrying the selection. Success gives the fully cleared state and one reload. Failure keeps the selection and the last reported progress, and leaves `success` empty. |
| `Listing.SizeFilter.Megabytes` | src/app/components/FileListing.jsx:124-126 | The size filter is one of 1, 5 or 10 MB, the number a list request sends. |
| `Listing.ListRequestDeterminesQuery` | src/app/components/FileListing.jsx:32-39 | The list request (filename, size in MB, page, limit 7) determines the query: two queries that send the same request are equal. |
| `Listing.AfterFetch` | src/app/components/FileListing.jsx:28-47 | After a fetch, `loading` is false. A response replaces the rows and both totals and leaves `error` empty. A failure keeps the rows and totals and sets the fetch error. The query and the delete state never change. |
| `Listing.PrevDisabled` | src/app/components/FileListing.jsx:194 | Prev is disabled exactly on page 1. |
| `Listing.NextDisabled` | src/app/components/FileListing.jsx:208 | Next is disabled exactly when the page equals totalPages, so it stays enabled when totalPages is 0. |
| `Listing.Press` | src/app/components/FileListing.jsx:192-212 | Prev moves one page back unless the page is 1. Next moves one page on unless the page equals totalPages. A disabled button leaves the page as it is. |
| `Listing.PressAllStaysInRange` | src/app/components/FileListing.jsx:192-212 | From a page in 1..totalPages, any sequence of Prev/Next presses stays in 1..totalPages. |
| `Listing.NextUnboundedWithoutPages` | src/app/components/FileListing.jsx:206-208 | With totalPages 0, Next is never disabled: n presses from page p reach page p+n. |
| `Listing.QueryEffectFetches` | src/app/components/FileListing.jsx:17-19 | The query effect fetches on mount and whenever filename, size or page differs from its last run. |
| `Listing.ReloadEffectFetches` | src/app/components/FileListing.jsx:21-25 | The reload effect fetches when the prop differs from its last run (or on mount) and the new value is truthy. |
| `Listing.ReloadFetchCount` | src/app/components/FileListing.jsx:21-25 | The number of reload-effect fetches over a history of prop values: at most one per value, and none if the prop is never true. |
| `Listing.ReloadFetchesOnce` | src/app/components/FileListing.jsx:21-25 | For a reload prop that never goes back to false, the reload effect fetches once if the prop is ever true and never otherwise. |
| `Listing.AllTrueFetchesNothing` | src/app/components/FileListing.jsx:21-25 | Once the effect has seen true, a prop that stays true triggers no fetch. |
| `Listing.TogglingReloadFetchesEachTime` | src/app/components/FileListing.jsx:21-25 | A prop toggling false, true, false, true would fetch twice: the effect fetches on each change to true, not on each change. |
| `Listing.ReplayReload` | src/app/components/FileListing.jsx:17-25 | Rendering the listing with the reload prop taking each value of a history, the query fixed, appends exactly `ReloadFetchCount` list requests, each for the current query. |
| `Listing.FileListing.constructor` | src/app/components/FileListing.jsx:6-15 | Initial state: no rows, filename "", size 10 MB, page 1, both totals 0, not loading, no error, nothing deleting or awaiting confirmation, no effect run yet. |
| `Listing.FileListing.FetchFiles` | src/app/components/FileListing.jsx:28-47 | Issues exactly one list request for the current query, and the new state is `AfterFetch` of the old one. |
| `Listing.FileListing.HandleSearchChange` | src/app/components/FileListing.jsx:50-53 | Sets `filename` to the new value and `currentPage` to 1, whatever the page was. Nothing else changes. |
| `Listing.FileListing.HandleSizeChange` | src/app/components/FileListing.jsx:56-59 | Sets `size` to the new value and `currentPage` to 1, whatever the page was. Nothing else changes. |
| `Listing.FileListing.ClearSearch` | src/app/components/FileListing.jsx:109 | Sets `filename` to "" and leaves `currentPage` and everything else as it was. |
| `Listing.FileListing.HandlePageChange` | src/app/components/FileListing.jsx:62-64 | Sets `currentPage` to exactly the given page, with no clamping. |
| `Listing.FileListing.PaginationShown` | src/app/components/FileListing.jsx:131-137 | The pagination row is rendered only when the table is: not loading and no error. |
| `Listing.FileListing.PressButton` | src/app/components/FileListing.jsx:131-212 | A Prev/Next press changes the page as `Press` says, and only while the pagination row is shown (not loading, no error). |
| `Listing.FileListing.HandleDeleteConfirmation` | src/app/components/FileListing.jsx:67-69 | The given filename overwrites any filename that was pending confirmation. |
| `Listing.FileListing.CancelDelete` | src/app/components/FileListing.jsx:89-91 | No filename is pending confirmation afterwards. Nothing else changes. |
| `Listing.FileListing.HandleDelete` | src/app/components/FileListing.jsx:72-86 | Issues the delete. Status 200: one refetch, a success toast, and both `confirmDelete` and `deleting` reset. Thrown error: an error toast and only `deleting` reset. Any other 2xx status (statuses outside 2xx arrive as a thrown error): `deleting` stays set to the filename. |
| `Listing.FileListing.RunEffects` | src/app/components/FileListing.jsx:17-25 | After a render, a list request is appended iff filename, size or page differ from the last run (or on mount). A second one is appended iff the reload prop changed to true. The state is the matching fetch outcomes applied in order. |
| `Page.Home.constructor` | src/app/page.js:8 | `reload` starts false. |
| `Page.Home.ReloadFiles` | src/app/page.js:11-13 | `reload` is true afterwards whatever it was, so a second call leaves it as the first left it. The flag's history only ever gains `true`. |
| `Page.OnlyFirstReloadRefetches` | src/app/page.js:11-13 | The flag never goes back to false, so the listing's reload effect fetches once if `ReloadFiles` was ever called and never otherwise. Only the first successful upload refetches through the flag. |

## Left out

- Rendering: the JSX markup, styling, spinner and progress bar are presentation only. The one visibility rule that gates an interaction, the pagination row hidden while loading or in error, is modelled in `PressButton`.
- HTTP: axios and the endpoint URLs, including the upload going to localhost while the listing uses the remote service. Each call is an outcome parameter plus an entry in the ghost request log.
- Toasts: only the message sequence is recorded, not how the messages are displayed.
- Concurrency: React's effect scheduling and batching, async interleaving, and stale responses overtaking newer ones are not modelled. Each handler and each fetch runs to completion before the next event. So `loading` is modelled only as false after a fetch, not as true while it is in flight.
- Formatting: `sizeMB.toFixed(2)` and `toLocaleDateString` depend on floating point and locale. `sizeMB` is carried as a `real`, and `uploadedAt` as an integer timestamp.
- `size` type: the select control makes `size` a string after a change. It is modelled as the enumeration 1, 5 or 10 MB.
- Upload.Percent: progress events whose total is 0 or unknown are not modelled. Every event carries a positive total. In JavaScript such an event would set the progress to Infinity or NaN.
- Upload.FailureNotice: the response data is modelled as a string, so a non-string payload handed to the toast is not.
- File contents: only a file's name, declared MIME type and size are kept.
- Row buttons: they exist only for listed rows, and Confirm Delete only for the pending row. The handlers are modelled as callable with any filename. The Upload button's disabled rule is stated as `UploadDisabled`, and `HandleUpload` keeps the source's own empty-selection guard instead of assuming the button was enabled.
