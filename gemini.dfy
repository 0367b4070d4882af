/** `extractDataFromFiles`: for each file, encode it, ask the model, locate and parse the JSON in the
    answer, validate it, and append the records; the first failing file aborts the call.
    The model call, the spreadsheet-to-CSV conversion, `JSON.parse`, the UUIDs and today's date are
    supplied in an `Env`. */
module Gemini {
  import opened Common
  import opened Json
  import opened Strings
  import opened Base64
  import opened FileProcessor
  import opened DataValidator
  import opened CustomersSlice
  import opened ProductsSlice

  const KeyMissingMessage := "Gemini API key is not configured"
  const NoJsonMessage := "No valid JSON found in response"
  const InvalidJsonMessage := "Invalid JSON response from AI"
  const ProcessFailedPrefix := "Failed to process file: "
  const CsvMimeType := "text/csv"
  const ConvertFailedPrefix := "Failed to convert Excel file: "
  /** How a template literal shows the missing `message` of the reader's error event. */
  const UndefinedText := "undefined"
  const FenceOpen := "```json\n"
  const FenceClose := "\n```"

  /** What a call into the model library gives back: its value, or the message of the plain `Error`
      it throws (never one of the application's own error classes). */
  datatype Reply<T> = Answer(value: T) | Thrown(message: string)

  /** What reading and converting a workbook gives back: the UTF-8 bytes of its first sheet as CSV,
      the message of the exception `XLSX` throws while converting, or the reader's error event. */
  datatype Conversion = Converted(csv: seq<byte>) | ConversionThrew(reason: string) | ReadAborted

  /** Everything a call depends on besides its files.
      `generate` is the model call down to `response.candidates[0].content.parts[0].text`;
      `sheetToCsv` is the `FileReader` plus `XLSX` work on a workbook;
      `parseJson` is `JSON.parse`, None when it throws; `ids(k)` are the UUIDs drawn for the k-th file. */
  datatype Env = Env(
    apiKey: string,
    generate: Payload -> Reply<string>,
    sheetToCsv: File -> Conversion,
    parseJson: string -> Option<Raw>,
    ids: nat -> RecordIds,
    today: string,
    coercion: Coercion)

  /** `ExtractedData`: the three record lists, in the order they were appended. */
  datatype Extracted = Extracted(invoices: seq<Invoice>, products: seq<Product>, customers: seq<Customer>)

  // ---------------------------------------------------------------------------------------------
  // Locating the JSON in the model's answer

  /** The regular expression /```json\n([\s\S]*)\n```/ can match with its opener at `p` and its
      closer at `q`. */
  predicate FenceAt(text: string, p: int, q: int) {
    OccursAt(text, FenceOpen, p) && OccursAt(text, FenceClose, q) && p + |FenceOpen| <= q
  }

  /** The captured group of the first match: the leftmost opener, and (the star being greedy) the
      rightmost closer after it. */
  function FenceBody(text: string): (r: Option<string>)
    ensures r.None? <==> forall p, q :: !FenceAt(text, p, q)
    ensures r.Some? ==>
      exists p, q :: FenceAt(text, p, q) && r.value == text[p + |FenceOpen|..q] &&
        forall p', q' :: FenceAt(text, p', q') ==> p <= p' && (p' == p ==> q' <= q)
  {
    var p := IndexOf(text, FenceOpen);
    var q := LastIndexOf(text, FenceClose);
    if p == -1 || q < p + |FenceOpen| then None
    else
      assert FenceAt(text, p, q);
      Some(text[p + |FenceOpen|..q])
  }

  /** Lines 78-92 of the source: the fenced block if there is one, otherwise `substring` from the
      first `{` to just after the last `}`. Since `lastIndexOf('}') + 1` is never -1, a `{` without
      any `}` is not refused: `substring` swaps its arguments and yields the text before the `{`. */
  function LocateJson(text: string, fileName: string): (r: Result<string>)
    ensures FenceBody(text).Some? ==> r == Ok(FenceBody(text).value)
    ensures FenceBody(text).None? ==>
      var p, q := IndexOf(text, "{"), LastIndexOf(text, "}");
      if p == -1 then r == Err(AIProcessingError(NoJsonMessage, fileName))
      else if q == -1 then r == Ok(text[..p])
      else if p <= q then r == Ok(text[p..q + 1])
      else r == Ok(text[q + 1..p])
  {
    match FenceBody(text)
    case Some(body) => Ok(body)
    case None =>
      var jsonStart := IndexOf(text, "{");
      var jsonEnd := LastIndexOf(text, "}") + 1;
      if jsonStart == -1 || jsonEnd == -1 then Err(AIProcessingError(NoJsonMessage, fileName))
      else Ok(Substring(text, jsonStart, jsonEnd))
  }

  /** The only failure of `LocateJson` is a text with neither a fenced block nor any `{`. */
  lemma LocateJsonFails(text: string, fileName: string)
    ensures LocateJson(text, fileName).Err? <==>
      FenceBody(text).None? && forall j :: 0 <= j < |text| ==> text[j] != '{'
  {
    if FenceBody(text).None? {
      forall j {
        OccursAtChar(text, '{', j);
      }
    }
  }

  lemma OccursAtChar(s: string, c: char, j: int)
    ensures OccursAt(s, [c], j) <==> 0 <= j < |s| && s[j] == c
  {
    if 0 <= j < |s| {
      assert s[j..j + 1] == [s[j]];
    }
  }

  /** `JSON.parse` on the located text; a parse failure becomes "Invalid JSON response from AI". */
  function ParseResponse(text: string, fileName: string, parseJson: string -> Option<Raw>): (r: Result<Raw>)
    ensures LocateJson(text, fileName).Err? ==> r == Err(LocateJson(text, fileName).error)
    ensures LocateJson(text, fileName).Ok? ==>
      match parseJson(LocateJson(text, fileName).value)
      case None => r == Err(AIProcessingError(InvalidJsonMessage, fileName))
      case Some(v) => r == Ok(v)
  {
    var candidate :- LocateJson(text, fileName);
    match parseJson(candidate)
    case None => Err(AIProcessingError(InvalidJsonMessage, fileName))
    case Some(v) => Ok(v)
  }

  // ---------------------------------------------------------------------------------------------
  // One file

  /** A declared type naming a workbook: it contains `excel` or `spreadsheet`. */
  predicate IsSpreadsheet(mimeType: string) {
    Contains(mimeType, "excel") || Contains(mimeType, "spreadsheet")
  }

  /** `convertExcelToText`: the CSV bytes of the first sheet, base64-encoded, typed `text/csv`; a
      conversion failure rejects with a plain `Error`, a read failure with the reader's event, whose
      message is undefined. */
  function ConvertExcelToText(file: File, env: Env): (r: Result<Payload>)
    ensures r.Ok? <==> env.sheetToCsv(file).Converted?
    ensures r.Ok? ==> r.value.mimeType == CsvMimeType && Decode(r.value.data) == Some(env.sheetToCsv(file).csv)
    ensures env.sheetToCsv(file).ConversionThrew? ==>
              r == Err(OtherError(ConvertFailedPrefix + env.sheetToCsv(file).reason))
    ensures env.sheetToCsv(file).ReadAborted? ==> r == Err(OtherError(UndefinedText))
  {
    match env.sheetToCsv(file)
    case Converted(csv) =>
      DecodeEncode(csv);
      Ok(Payload(CsvMimeType, Encode(csv)))
    case ConversionThrew(reason) => Err(OtherError(ConvertFailedPrefix + reason))
    case ReadAborted => Err(OtherError(UndefinedText))
  }

  /** Lines 64-67: workbooks go through the converter, everything else through `readFileAsBase64`
      (and only those meet its size guards). */
  function EncodeFile(file: File, env: Env): (r: Result<Payload>)
    ensures IsSpreadsheet(file.declaredType) ==> r == ConvertExcelToText(file, env)
    ensures !IsSpreadsheet(file.declaredType) ==> r == ReadFileAsBase64(file)
  {
    if IsSpreadsheet(file.declaredType) then ConvertExcelToText(file, env) else ReadFileAsBase64(file)
  }

  /** A library reply as the `await` sees it: a thrown message becomes a plain error. */
  function Raised<T>(reply: Reply<T>): (r: Result<T>)
    ensures reply.Answer? ==> r == Ok(reply.value)
    ensures reply.Thrown? ==> r == Err(OtherError(reply.message))
  {
    match reply
    case Answer(v) => Ok(v)
    case Thrown(m) => Err(OtherError(m))
  }

  /** The body of the `try` for one file. */
  function ProcessBody(file: File, k: nat, env: Env): Result<Validated> {
    var payload :- EncodeFile(file, env);
    var text :- Raised(env.generate(payload));
    var raw :- ParseResponse(text, file.name, env.parseJson);
    ValidateAndTransform(raw, env.ids(k), env.today, env.coercion)
  }

  /** The `catch` for one file: the two file-attributed errors are rethrown, anything else (a
      `ValidationError` included) is wrapped as "Failed to process file: ...". */
  function CatchProcess<T>(r: Result<T>, fileName: string): (c: Result<T>)
    ensures r.Ok? ==> c == r
    ensures r.Err? && (r.error.FileProcessingError? || r.error.AIProcessingError?) ==> c == r
    ensures r.Err? && !(r.error.FileProcessingError? || r.error.AIProcessingError?) ==>
      c == Err(FileProcessingError(ProcessFailedPrefix + r.error.message, fileName))
  {
    match r
    case Ok(_) => r
    case Err(e) =>
      if e.FileProcessingError? || e.AIProcessingError? then r
      else Err(FileProcessingError(ProcessFailedPrefix + e.message, fileName))
  }

  /** What processing the `k`-th file yields: its validated records, or the error it throws. */
  function ProcessFile(file: File, k: nat, env: Env): (r: Result<Validated>)
    ensures r.Err? ==> r.error.FileProcessingError? || r.error.AIProcessingError?
  {
    CatchProcess(ProcessBody(file, k, env), file.name)
  }

  /** An answer whose JSON has no usable key fails the file with the wrapped validation message. */
  lemma EmptyExtractionFails(file: File, k: nat, env: Env, payload: Payload, text: string, raw: Raw)
    requires EncodeFile(file, env) == Ok(payload)
    requires env.generate(payload) == Answer(text)
    requires ParseResponse(text, file.name, env.parseJson) == Ok(raw)
    requires raw.Obj?
    requires !Truthy(Get(raw, "invoice")) && !Truthy(Get(raw, "product")) && !Truthy(Get(raw, "customer"))
    ensures ProcessFile(file, k, env) ==
      Err(FileProcessingError(ProcessFailedPrefix + NoValidDataMessage, file.name))
  {
  }

  /** A model call that throws fails the file with its message, wrapped and attributed to the file. */
  lemma ModelFailureWrapped(file: File, k: nat, env: Env, payload: Payload)
    requires EncodeFile(file, env) == Ok(payload)
    requires env.generate(payload).Thrown?
    ensures ProcessFile(file, k, env) ==
      Err(FileProcessingError(ProcessFailedPrefix + env.generate(payload).message, file.name))
  {
  }

  /** A workbook that cannot be converted fails the file with the converter's message wrapped a second
      time; one that cannot be read fails it with "Failed to process file: undefined". */
  lemma ConversionFailureWrapped(file: File, k: nat, env: Env)
    requires IsSpreadsheet(file.declaredType)
    requires !env.sheetToCsv(file).Converted?
    ensures env.sheetToCsv(file).ConversionThrew? ==>
              ProcessFile(file, k, env) == Err(FileProcessingError(
                ProcessFailedPrefix + ConvertFailedPrefix + env.sheetToCsv(file).reason, file.name))
    ensures env.sheetToCsv(file).ReadAborted? ==>
              ProcessFile(file, k, env) == Err(FileProcessingError(ProcessFailedPrefix + UndefinedText, file.name))
  {
  }

  // ---------------------------------------------------------------------------------------------
  // The accumulation over the files of one call

  function OptionToSeq<T>(o: Option<T>): (s: seq<T>)
    ensures |s| <= 1
    ensures o.Some? ==> s == [o.value]
    ensures o.None? ==> s == []
  {
    if o.Some? then [o.value] else []
  }

  /** Appending one file's records. */
  function Append(acc: Extracted, v: Validated): Extracted {
    Extracted(
      acc.invoices + OptionToSeq(v.invoice),
      acc.products + OptionToSeq(v.product),
      acc.customers + OptionToSeq(v.customer))
  }

  /** What a call does with each file: its position-aware outcome. */
  type Processor = (File, nat) -> Result<Validated>

  function FileOutcome(env: Env): Processor {
    (file: File, k: nat) => ProcessFile(file, k, env)
  }

  /** The loop over `files`, file by file: the error of the first failing file, or every file's
      records appended in file order. */
  function Collect(files: seq<File>, process: Processor): Result<Extracted>
    decreases |files|
  {
    if files == [] then Ok(Extracted([], [], []))
    else
      var n := |files| - 1;
      var acc :- Collect(files[..n], process);
      var v :- process(files[n], n);
      Ok(Append(acc, v))
  }

  /** The whole call: the key check comes before any file is looked at. */
  function ExtractSpec(files: seq<File>, env: Env): (r: Result<Extracted>)
    ensures env.apiKey == "" ==> r == Err(OtherError(KeyMissingMessage))
  {
    if env.apiKey == "" then Err(OtherError(KeyMissingMessage)) else Collect(files, FileOutcome(env))
  }

  /** `extractDataFromFiles`. */
  method ExtractDataFromFiles(files: seq<File>, env: Env) returns (r: Result<Extracted>)
    ensures r == ExtractSpec(files, env)
    ensures env.apiKey == "" ==> r == Err(OtherError(KeyMissingMessage))
  {
    if env.apiKey == "" {
      return Err(OtherError(KeyMissingMessage));
    }
    r := ProcessAll(files, FileOutcome(env));
  }

  /** The `for ... of` loop of `extractDataFromFiles`: each file's records are pushed onto the three
      lists; the first error leaves the loop and the call. */
  method ProcessAll(files: seq<File>, process: Processor) returns (r: Result<Extracted>)
    ensures r == Collect(files, process)
  {
    var invoices: seq<Invoice> := [];
    var products: seq<Product> := [];
    var customers: seq<Customer> := [];
    for i := 0 to |files|
      invariant Collect(files[..i], process) == Ok(Extracted(invoices, products, customers))
    {
      assert files[..i + 1][..i] == files[..i] && files[..i + 1][i] == files[i];
      var validated := process(files[i], i);
      if validated.Err? {
        CollectStopsAtFailure(files, i, process);
        return Err(validated.error);
      }
      var v := validated.value;
      ghost var before := Extracted(invoices, products, customers);
      if v.invoice.Some? {
        invoices := invoices + [v.invoice.value];
      }
      if v.product.Some? {
        products := products + [v.product.value];
      }
      if v.customer.Some? {
        customers := customers + [v.customer.value];
      }
      assert invoices == before.invoices + OptionToSeq(v.invoice);
      assert products == before.products + OptionToSeq(v.product);
      assert customers == before.customers + OptionToSeq(v.customer);
    }
    assert files[..|files|] == files;
    return Ok(Extracted(invoices, products, customers));
  }

  /** Once the file at position `i` fails after the ones before it succeeded, the call fails with its error. */
  lemma {:induction false} CollectStopsAtFailure(files: seq<File>, i: nat, process: Processor)
    requires i < |files|
    requires Collect(files[..i], process).Ok?
    requires process(files[i], i).Err?
    ensures Collect(files, process) == Err(process(files[i], i).error)
    decreases |files|
  {
    if i == |files| - 1 {
      assert files[..|files| - 1] == files[..i];
    } else {
      var n := |files| - 1;
      assert files[..n][..i] == files[..i];
      assert files[..n][i] == files[i];
      CollectStopsAtFailure(files[..n], i, process);
    }
  }

  /** The call succeeds exactly when every file succeeds. */
  lemma {:induction false} CollectOkIff(files: seq<File>, process: Processor)
    ensures Collect(files, process).Ok? <==> forall k :: 0 <= k < |files| ==> process(files[k], k).Ok?
    decreases |files|
  {
    if files != [] {
      var n := |files| - 1;
      CollectOkIff(files[..n], process);
      assert forall k :: 0 <= k < n ==> files[..n][k] == files[k];
    }
  }

  /** The first failing file decides the error, whatever the files after it would do. */
  lemma FirstFailureWins(files: seq<File>, i: nat, process: Processor)
    requires i < |files|
    requires forall k :: 0 <= k < i ==> process(files[k], k).Ok?
    requires process(files[i], i).Err?
    ensures Collect(files, process) == Err(process(files[i], i).error)
  {
    CollectOkIff(files[..i], process);
    assert forall k :: 0 <= k < i ==> files[..i][k] == files[k];
    CollectStopsAtFailure(files, i, process);
  }

  /** Records are appended in file order: the records of the first `i` files are a prefix of the
      final lists, and each file adds at most one invoice, one product and one customer. */
  lemma {:induction false} CollectInFileOrder(files: seq<File>, i: nat, process: Processor)
    requires i <= |files| && Collect(files, process).Ok?
    ensures Collect(files[..i], process).Ok?
    ensures var part, all := Collect(files[..i], process).value, Collect(files, process).value;
            part.invoices <= all.invoices && part.products <= all.products && part.customers <= all.customers
    ensures var all := Collect(files, process).value;
            |all.invoices| <= |files| && |all.products| <= |files| && |all.customers| <= |files|
    decreases |files|
  {
    if files == [] {
      assert files[..i] == files;
    } else if i == |files| {
      var n := |files| - 1;
      assert files[..i] == files;
      CollectInFileOrder(files[..n], n, process);
    } else {
      var n := |files| - 1;
      assert files[..n][..i] == files[..i];
      CollectInFileOrder(files[..n], i, process);
    }
  }

  /** File `i` adds exactly its own records: after the first `i + 1` files each list is what it was
      after the first `i` files, extended by that file's invoice, product and customer when present. */
  lemma CollectStep(files: seq<File>, i: nat, process: Processor)
    requires i < |files| && Collect(files[..i + 1], process).Ok?
    ensures Collect(files[..i], process).Ok? && process(files[i], i).Ok?
    ensures var before, after, v :=
              Collect(files[..i], process).value, Collect(files[..i + 1], process).value, process(files[i], i).value;
            after.invoices == before.invoices + OptionToSeq(v.invoice) &&
            after.products == before.products + OptionToSeq(v.product) &&
            after.customers == before.customers + OptionToSeq(v.customer)
    ensures var before, after := Collect(files[..i], process).value, Collect(files[..i + 1], process).value;
            |before.invoices| <= |after.invoices| <= |before.invoices| + 1 &&
            |before.products| <= |after.products| <= |before.products| + 1 &&
            |before.customers| <= |after.customers| <= |before.customers| + 1
  {
    var prefix := files[..i + 1];
    assert prefix[..i] == files[..i];
    assert prefix[i] == files[i];
  }
}
