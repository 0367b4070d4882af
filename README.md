# invoice-ai extraction pipeline, modelled in Dafny

This project models the deterministic core of invoice-ai. That core turns uploaded documents into invoice, product and customer records. Its stages are:

- **The file encoder** (`readFileAsBase64`, `getMimeType`):
  - size guards;
  - the byte-to-binary-string fold;
  - base64 per section 4 of RFC 4648;
  - the MIME table.
- **The extractor driver** (`extractDataFromFiles`):
  - the API-key check;
  - routing spreadsheets to the CSV converter;
  - locating the JSON in the AI's answer;
  - the per-file loop that accumulates records and stops at the first error.
- **The schema validator** (`validateAndTransformData` and its three record builders).
- **The drop handler of the upload component** (`onDrop`):
  - the 10 MB pre-filter;
  - windows of three files;
  - the dispatch order;
  - the list of files in progress.
- **The customers and products stores**, with their three reducers.

Modules follow the source files:

| module | file | models |
|---|---|---|
| `Common` | `common.dfy` | `Option`, `Result` and the error kinds of `errors.ts` |
| `Json` | `json.dfy` | The raw JavaScript values that `JSON.parse` may return, truthiness, property access, and `Number(x) \|\| 0` / `String(x \|\| '')` over an abstract number coercion |
| `Strings` | `strings.dfy` | The string built-ins the code uses: `indexOf`, `lastIndexOf`, `includes`, `substring` (with its clamping and swapping), `toLowerCase`, `join`, `filter` |
| `Base64` | `base64.dfy` | `btoa`'s encoding, with a decoder as its partner and the round trip proved |
| `FileProcessor` | `file_processor.dfy` | `src/services/fileProcessor.ts` |
| `DataValidator` | `data_validator.dfy` | `src/services/dataValidator.ts` |
| `ItemList` | `item_list.dfy` | `findIndex` and replace-first-by-id, shared by both slices |
| `CustomersSlice`, `ProductsSlice` | `customers_slice.dfy`, `products_slice.dfy` | The two slices. Each state is a class whose reducers update `items` in place |
| `Gemini` | `gemini.dfy` | `src/services/gemini.ts` |
| `FileUpload` | `file_upload.dfy` | `onDrop` in `src/components/FileUpload.tsx`. The component is a class with a progress list and an event log |

The AI model, the spreadsheet library, `JSON.parse`, UUIDs, today's date, and JavaScript's number parsing and printing are parameters. They are oracles held in `Gemini.Env` and `Json.Coercion`, passed as `RecordIds` and `today`, and `extractDataFromFiles` is the `FileUpload.Extractor` function. The drop handler's effects are recorded as `FileUpload.Event`s: store dispatches, toasts, progress updates, and extractor calls.

Behaviour of the code that its names and comments do not suggest:

- **Errors stop a whole window.** The constant `MAX_CONCURRENT_PROCESSING` and the comment "Process files in batches" (`src/components/FileUpload.tsx:13,36`) suggest files are handled independently. Yet `extractDataFromFiles` awaits the files of a window one after the other and rethrows the first error (`src/services/gemini.ts:61-124`). So one bad file aborts the rest of its window, and the window's records are all dropped (`Gemini.FirstFailureWins`). Only later windows continue (`FileUpload.ExtractCallsAreWindows`).
- **A missing API key is not fatal to the drop.** The key check (`src/services/gemini.ts:49-51`) throws a plain `Error` inside each window's extractor call. `onDrop` toasts it as "Error processing files: Gemini API key is not configured" and goes on with the next window.
- **The progress list can hold more than three entries.** The entries of a failed window are never removed, so they stay beside the next window's entries (`FileUpload.FailedWindowEntriesLinger`).
- **`quantity` is any number.** It is `Number(x) || 0` (`src/services/dataValidator.ts:51`), so fractions pass and nothing checks for an integer.

## Model

| member | source | states |
|---|---|---|
| Json.NumberOrZero | src/services/dataValidator.ts:51-53 | `Number(x) \|\| 0` is 0 exactly when the coercion gives NaN or 0; otherwise it is the coerced number. |
| Json.TextOrEmpty | src/services/dataValidator.ts:48-50 | `String(x \|\| '')` is the empty string for a falsy raw value, and the value's JavaScript text otherwise. |
| Strings.IndexOf | src/services/gemini.ts:82 | -1 if and only if the pattern occurs nowhere; otherwise the result is an occurrence with none before it. |
| Strings.LastIndexOf | src/services/gemini.ts:83 | -1 if and only if the pattern occurs nowhere; otherwise the result is an occurrence with none after it. |
| Strings.Contains | src/services/gemini.ts:65 | `includes` is true if and only if the pattern occurs at some index of the string. |
| Strings.Substring | src/services/gemini.ts:89 | For ends with `0 <= a <= b <= length`, the result is exactly the characters from `a` up to `b`. It is never longer than the string. |
| Strings.SubstringSwap | src/services/gemini.ts:89 | Swapping the two ends gives the same result. |
| Strings.SubstringClamps | src/services/gemini.ts:89 | An end below 0 acts as 0, and an end past the string acts as its length. |
| Strings.Join | src/components/FileUpload.tsx:27 | No parts give the empty string and one part gives that part. Otherwise the text starts with the first part, followed by the separator. |
| Strings.JoinAppend | src/components/FileUpload.tsx:27 | Joining one more part appends the separator and then that part. So the parts appear in order, one separator between neighbours. |
| Strings.LowerCase | src/services/fileProcessor.ts:29 | Same length; each character is lower-cased. |
| Strings.Filter | src/services/dataValidator.ts:44 | An element is kept if and only if it is in the input and satisfies the predicate; the result is a subsequence of the input, so order is kept. |
| Strings.FilterCounts | src/services/dataValidator.ts:44 | Each element satisfying the predicate occurs in the result as often as in the input; any other element occurs 0 times. |
| Base64.ValueOfCharOf | src/services/fileProcessor.ts:16 | Decoding the alphabet character of a 6-bit value gives that value back. |
| Base64.Encode | src/services/fileProcessor.ts:16 | The output has 4 characters for every 3 bytes or part of 3 bytes. Its characters are fixed by `DecodeEncode` together with `DecodeInjective`. |
| Base64.DecodeEncode | src/services/fileProcessor.ts:16 | Decoding the encoding of any byte sequence gives back that byte sequence. |
| Base64.EncodeDecode | src/services/fileProcessor.ts:16 | Any text the decoder accepts is the encoding of what it decodes to. The decoder rejects padding whose unused bits are not zero (section 3.5 of RFC 4648). |
| Base64.DecodeInjective | src/services/fileProcessor.ts:16 | Two accepted texts with the same bytes are the same text. So the decoder, and with it `DecodeEncode`, fixes `Encode` completely. |
| FileProcessor.BinaryString | src/services/fileProcessor.ts:15 | The fold yields one character per byte, whose code is that byte. |
| FileProcessor.BinaryStringCodes | src/services/fileProcessor.ts:15-16 | The binary string is accepted by `btoa`, and its character codes are exactly the bytes. |
| FileProcessor.Btoa | src/services/fileProcessor.ts:16 | Succeeds if and only if every character code is below 256. The result decodes to those codes. A refusal is an ordinary error. |
| FileProcessor.Extension | src/services/fileProcessor.ts:29 | `split('.').pop()` contains no dot and is a suffix of the name. A dot precedes it when it is shorter than the name. It is the whole name when there is no dot. |
| FileProcessor.GetMimeType | src/services/fileProcessor.ts:26-49 | A non-empty declared type is returned verbatim. Otherwise the lower-cased extension is looked up in the 10-entry table, and a miss is "Unsupported file type" for that file. |
| FileProcessor.CatchRead | src/services/fileProcessor.ts:20-23 | Success and a `FileProcessingError` pass unchanged. Any other error becomes `FileProcessingError('Failed to read file: ' + its message)` for the file. |
| FileProcessor.ReadFileAsBase64 | src/services/fileProcessor.ts:3-24 | Checks run in order: empty first, then over 20 MB (exactly 20 MB passes), then the MIME lookup. A result decodes back to the file's bytes. Every failure is a `FileProcessingError` naming the file. |
| FileProcessor.SupportedFileEncodes | src/services/fileProcessor.ts:5-18 | A non-empty file within the limit, with a declared type or a known extension, is always encoded. |
| ItemList.FindIndex | src/store/slices/customersSlice.ts:32 | -1 if and only if no item has the id; otherwise the first index that has it. |
| ItemList.FirstWithKey | src/store/slices/productsSlice.ts:32 | The position of the first item with the id, or the length when there is none. |
| ItemList.ReplaceFirst | src/store/slices/customersSlice.ts:31-36 | Length is unchanged; the first item with the payload's id becomes the payload; every other index keeps its item. |
| ItemList.ReplaceWithoutMatch | src/store/slices/customersSlice.ts:33-35 | With no item carrying the id, the list is unchanged. |
| ItemList.ReplaceOnlyFirst | src/store/slices/productsSlice.ts:31-35 | A later item with the same id keeps its value, while the first one is replaced. |
| CustomersSlice.CustomersState.constructor | src/store/slices/customersSlice.ts:17-19 | The initial list is empty. |
| CustomersSlice.CustomersState.SetCustomers | src/store/slices/customersSlice.ts:25-27 | The list becomes the payload. |
| CustomersSlice.CustomersState.AddCustomer | src/store/slices/customersSlice.ts:28-30 | The payload is appended; the length grows by one and the earlier items are unchanged. |
| CustomersSlice.CustomersState.UpdateCustomer | src/store/slices/customersSlice.ts:31-36 | The new list is `ReplaceFirst` of the old one. Its length is unchanged. With no matching id, nothing changes. |
| ProductsSlice.ProductsState.constructor | src/store/slices/productsSlice.ts:17-19 | The initial list is empty. |
| ProductsSlice.ProductsState.SetProducts | src/store/slices/productsSlice.ts:25-27 | The list becomes the payload. |
| ProductsSlice.ProductsState.AddProduct | src/store/slices/productsSlice.ts:28-30 | The payload is appended; the length grows by one and the prefix is unchanged. |
| ProductsSlice.ProductsState.UpdateProduct | src/store/slices/productsSlice.ts:31-36 | The new list is `ReplaceFirst` of the old one. Its length is unchanged. With no matching id, nothing changes. |
| DataValidator.MissingFields | src/services/dataValidator.ts:43-44 | A field is listed if and only if it is required and its raw value is falsy. The list is a subsequence of the required fields, so it keeps their fixed order. |
| DataValidator.NoneMissing | src/services/dataValidator.ts:43-55 | Nothing is missing exactly when every required field is truthy. |
| DataValidator.ValidateInvoice | src/services/dataValidator.ts:42-58 | The invoice is `incomplete` if and only if `missingFields` is present. `missingFields` is present only when non-empty. The invoice is `complete` if and only if every required field is truthy. Text fields follow `String(x \|\| '')` and numbers follow `Number(x) \|\| 0`. The date is the raw date when truthy, else today's. |
| DataValidator.ValidateProduct | src/services/dataValidator.ts:60-70 | `discount` is absent if and only if the raw discount is `undefined`. Otherwise it is the raw coercion, with no zero fallback. The other fields are coerced as in the invoice. |
| DataValidator.ValidateCustomer | src/services/dataValidator.ts:72-81 | `email`, `address` and `lastPurchaseDate` are copied unchanged, `undefined` included. The other fields are coerced. |
| DataValidator.ValidateAndTransform | src/services/dataValidator.ts:12-40 | Each record is present if and only if its key is truthy, and it equals its builder's result. The call fails if and only if no key is truthy; that failure is the "No valid data" `ValidationError`. A `null` or `undefined` input throws a property-access error. |
| DataValidator.QuantityJudgedBeforeCoercion | src/services/dataValidator.ts:44-51 | A truthy `quantity` that is not a number is not reported missing, yet it is stored as 0. |
| DataValidator.OnlyTaxMissing | src/services/dataValidator.ts:43-56 | With only `tax` falsy, the invoice is `incomplete` with `missingFields` exactly `["tax"]`. |
| Gemini.FenceBody | src/services/gemini.ts:79 | No match if and only if there is no ```` ```json\n ```` opener with a later ```` \n``` ```` closer. Otherwise the captured text runs from the leftmost opener to the rightmost closer, because the match is greedy. |
| Gemini.LocateJson | src/services/gemini.ts:78-92 | A fenced block wins. Otherwise: no `{` is `AIProcessingError('No valid JSON found in response')`. A `{` without `}` gives the text before the `{`, since `substring` swaps. Otherwise it is the span from the first `{` to the last `}`, or the swapped span when the last `}` comes first. |
| Gemini.LocateJsonFails | src/services/gemini.ts:82-87 | Locating fails if and only if there is no fenced block and no `{` at all; the `jsonEndIndex === -1` guard never fires. |
| Gemini.ParseResponse | src/services/gemini.ts:94-100 | A candidate that does not parse is `AIProcessingError('Invalid JSON response from AI')`; otherwise the result is the parsed value. |
| Gemini.ConvertExcelToText | src/services/gemini.ts:13-46 | Succeeds if and only if the workbook is read and converted. It then has MIME `text/csv`, and its data decodes to the CSV bytes. A conversion exception rejects with "Failed to convert Excel file: " and its message. A read failure rejects with the reader's event, whose message reads "undefined". |
| Gemini.EncodeFile | src/services/gemini.ts:64-67 | A declared type containing `excel` or `spreadsheet` goes to the CSV converter, and every other file to `readFileAsBase64`. |
| Gemini.CatchProcess | src/services/gemini.ts:115-123 | `FileProcessingError` and `AIProcessingError` are rethrown unchanged; anything else becomes `FileProcessingError('Failed to process file: …')` for the file. |
| Gemini.ProcessFile | src/services/gemini.ts:62-123 | Every failure of a file is a `FileProcessingError` or an `AIProcessingError`. |
| Gemini.ModelFailureWrapped | src/services/gemini.ts:70-122 | An error thrown by the model call fails the file as `FileProcessingError('Failed to process file: ' + its message)`. |
| Gemini.ConversionFailureWrapped | src/services/gemini.ts:36-41 | A workbook that cannot be converted fails the file as "Failed to process file: Failed to convert Excel file: …". One that cannot be read fails it as "Failed to process file: undefined". |
| Gemini.EmptyExtractionFails | src/services/gemini.ts:103-122 | An answer with none of the three keys truthy fails as `FileProcessingError('Failed to process file: No valid data found in the extracted content')`. |
| Gemini.ExtractSpec | src/services/gemini.ts:48-51 | An empty API key fails with "Gemini API key is not configured" before any file is looked at. |
| Gemini.ExtractDataFromFiles | src/services/gemini.ts:48-127 | The method's result is `ExtractSpec`: the key check, then the accumulation over the files. |
| Gemini.ProcessAll | src/services/gemini.ts:55-126 | The loop pushing into the three lists returns exactly the recursive accumulation `Collect`. |
| Gemini.CollectStopsAtFailure | src/services/gemini.ts:115-123 | After a successful prefix, the first failing file's error is the result of the whole call. |
| Gemini.CollectOkIff | src/services/gemini.ts:61-124 | The call succeeds if and only if every file succeeds. |
| Gemini.FirstFailureWins | src/services/gemini.ts:61-124 | The earliest failing file determines the error; later files are never reached. |
| Gemini.CollectInFileOrder | src/services/gemini.ts:106-114 | Each list after a prefix of the files is a prefix of the final list, and no list is longer than the number of files. |
| Gemini.CollectStep | src/services/gemini.ts:106-114 | File `i` adds exactly its own records. After `i + 1` files, each list is the list after `i` files, extended by that file's invoice, product or customer when it has one, so it grows by at most one. |
| FileUpload.Oversized | src/components/FileUpload.tsx:25 | A file is listed if and only if its size is strictly over 10 MB, in input order. |
| FileUpload.OversizedCounts | src/components/FileUpload.tsx:25 | A file over 10 MB is listed as many times as it was dropped; any other file is listed 0 times. |
| FileUpload.ProgressEntries | src/components/FileUpload.tsx:39 | Exactly one `Processing <name>...` entry per file of the window, in order. |
| FileUpload.Prune | src/components/FileUpload.tsx:50-52 | An entry is kept if and only if it names none of the window's files; order is kept. |
| FileUpload.PruneCounts | src/components/FileUpload.tsx:50-52 | Every copy of an entry naming none of the window's files stays, and every copy of one naming some is dropped. |
| FileUpload.ErrorToast | src/components/FileUpload.tsx:54-58 | A `FileProcessingError` or `AIProcessingError` reads `<file name>: ` followed by its message. Any other error reads `Error processing files: ` followed by its message. |
| FileUpload.WindowOutcome | src/components/FileUpload.tsx:39-59 | A window first shows the old entries plus its own, then calls the extractor once. On success it dispatches the records and keeps only the entries naming none of its files. On failure it toasts the error, dispatches nothing, and keeps every entry. The toast reads `<file>: <message>` for file errors and `Error processing files: <message>` otherwise. |
| FileUpload.WindowsPartition | src/components/FileUpload.tsx:37-38 | The windows concatenate to the input. Each has one to three files, and all but the last have exactly three. |
| FileUpload.WindowStepExtracts | src/components/FileUpload.tsx:42 | A window calls the extractor exactly once, on its own files. |
| FileUpload.RunWindowsExtracts | src/components/FileUpload.tsx:37-60 | The loop calls the extractor on the windows in order, whatever earlier windows returned. |
| FileUpload.ExtractCallsAreWindows | src/components/FileUpload.tsx:37-60 | Without an oversized file, the extractor calls are exactly the windows, in order, and together they cover the drop. A failed window does not stop the loop. |
| FileUpload.OversizedDropRejected | src/components/FileUpload.tsx:25-31 | A drop with a file strictly over 10 MB shows one error listing the oversized names joined by `, ` and clears the loading flag. It makes no extractor call and no dispatch, whatever the extractor would do. |
| FileUpload.DispatchOrder | src/components/FileUpload.tsx:45-47 | All invoices are dispatched, then all products, then all customers, each in list order. |
| FileUpload.ProgressClearedAtEnds | src/components/FileUpload.tsx:20-76 | The progress list is emptied first and last; a rejected drop shows no other progress. |
| FileUpload.FailedWindowEntriesLinger | src/components/FileUpload.tsx:39-59 | With six files and a failing first window, the list shown during the second window has six entries. |
| FileUpload.Uploader.constructor | src/components/FileUpload.tsx:17 | The progress list starts empty. |
| FileUpload.Uploader.Open | src/components/FileUpload.tsx:20-22 | Clears progress, sets loading and clears the error, in that order. |
| FileUpload.Uploader.Close | src/components/FileUpload.tsx:62-76 | Dismisses the loading toast, toasts success, clears loading and empties the progress list. |
| FileUpload.Uploader.RejectOversized | src/components/FileUpload.tsx:26-30 | Logs the toast listing the oversized names, then clears loading, and leaves the progress list alone. |
| FileUpload.Uploader.ProcessAccepted | src/components/FileUpload.tsx:34-76 | Logs the loading toast, then the windows' events, then the closing events, and leaves the progress list empty. |
| FileUpload.Uploader.OnDrop | src/components/FileUpload.tsx:19-78 | The log grows by exactly `DropEvents` of the drop, and the progress list ends empty. |
| FileUpload.Uploader.ProcessWindows | src/components/FileUpload.tsx:37-60 | The `i += 3` loop logs exactly the windows' events and leaves their progress list. |
| FileUpload.Uploader.ProcessWindow | src/components/FileUpload.tsx:38-59 | One pass of the loop logs exactly that window's events and leaves its progress list. |
| FileUpload.Uploader.DispatchAll | src/components/FileUpload.tsx:45-47 | The three `forEach` loops log the records' dispatches in order and leave the progress list unchanged. |

## Left out

- **The AI call** (`src/services/gemini.ts:8,53,70-76`) is the oracle `Env.generate`. It returns the answer text, or the message of the plain `Error` it throws (`Gemini.Reply`). An answer without `candidates[0].content.parts[0].text` throws a `TypeError`, which is such an error. The library never throws the application's own error classes, so every such failure is wrapped (`Gemini.ModelFailureWrapped`).
- **The workbook conversion** (`XLSX.read`, `sheet_to_csv`, `FileReader`, and the UTF-8 step `unescape(encodeURIComponent(...))`) is the oracle `Env.sheetToCsv`. It returns one of three things (`Gemini.Conversion`): the CSV bytes, the message of an exception thrown while converting, or the reader's error event.
- **`JSON.parse`** is the oracle `Env.parseJson`.
- **`Raw` has no arrays.** So `String(...)` of an array and the flattening of an array `product` are not modelled. The flattening branch is dead in the source anyway: `validateProduct` always returns a single object.
- **`Number(...)` and `String(...)` of numbers are the abstract `Json.Coercion`.** Floating point is modelled as `real`, and `toFixed` formatting in the tabs is not part of this model.
- **`crypto.randomUUID()` and `new Date()`** are parameters: `Gemini.Env.ids` maps a file's index to its three ids, and `today` is given. Uniqueness of the ids is not modelled.
- **`Strings.LowerCase`** lower-cases ASCII letters only; the rest of Unicode case mapping is not modelled.
- **`FileProcessor.GetMimeType`** treats the MIME table as a plain map. Keys inherited from `Object.prototype`, such as an extension `constructor`, are not modelled.
- **`FileProcessor.ReadFileAsBase64`** is given the file's bytes, so `arrayBuffer()` never fails. `btoa` is proved never to refuse the binary string. The "Failed to read file: …" rewrap is therefore modelled in `CatchRead` but unreachable.
- **`validateAndTransformData`'s `fileName` parameter** is unused in the source, so it is not modelled.
- **`invoicesSlice`** is not part of this model. Only the `Invoice` shape built in `src/services/dataValidator.ts:46-57` is known.
- **The outer `catch` of `onDrop`** (`src/components/FileUpload.tsx:65-73`) is not modelled. Every extractor error is caught by the inner `catch`, and the dispatches, toasts and progress updates are log entries that cannot throw.
- **`FileUpload.Event.ToastDismiss`** does not carry the toast id.
- **`setProcessingProgress` updates** are applied at once; React's batching is not modelled.
- **The loading toast's count** is written with `NatToText`, which is known only to produce decimal digits; its value is not proved.
- **React rendering, the dropzone configuration and the other components** (`src/components/FileUpload.tsx:80-134`, the tabs, `App.tsx`) are UI only.
- **Overlapping drops** are not modelled. react-dropzone does not wait for the promise `onDrop` returns, and the dropzone stays enabled while files are processed. So a second drop can start while an earlier one is still awaiting its extractor. Both would then share the progress list and the loading flag. The model runs each drop to completion before the next starts; within one drop, `await` is sequential evaluation.
