/** The drop handler of the upload component (`onDrop`): the 10 MB pre-filter, the windows of three
    files handed to `extractDataFromFiles` one after the other, the dispatch of the extracted
    records, and the list of "Processing ..." entries shown while a window is in flight.
    Everything the handler does to the outside world (store dispatches, toasts, progress updates,
    calls of the extractor) is recorded, in order, as an event log; the extractor is a parameter. */
module FileUpload {
  import opened Common
  import opened Strings
  import opened FileProcessor
  import opened DataValidator
  import opened CustomersSlice
  import opened ProductsSlice
  import opened Gemini

  const MaxFileSize: nat := 10 * 1024 * 1024
  const MaxConcurrentProcessing: nat := 3
  const OversizePrefix := "Files exceeding 10MB limit: "
  const DoneMessage := "File processing completed"
  const BatchErrorPrefix := "Error processing files: "

  /** One observable effect of the handler. */
  datatype Event =
    | Progress(entries: seq<string>)      // setProcessingProgress
    | SetLoading(on: bool)                // dispatch(setLoading(..))
    | SetError(error: Option<string>)     // dispatch(setError(..))
    | ToastLoading(message: string)
    | ToastError(message: string)
    | ToastDismiss
    | ToastSuccess(message: string)
    | Extract(batch: seq<File>)           // a call of extractDataFromFiles
    | AddInvoice(invoice: Invoice)
    | AddProduct(product: Product)
    | AddCustomer(customer: Customer)

  /** `extractDataFromFiles`, as the handler sees it. */
  type Extractor = seq<File> -> Result<Extracted>

  // ---------------------------------------------------------------------------------------------
  // The pieces of the handler, as functions

  /** The files over the 10 MB limit, in input order. */
  function Oversized(files: seq<File>): (r: seq<File>)
    ensures forall f :: f in r <==> f in files && f.Size() > MaxFileSize
    ensures IsSubsequence(r, files)
  {
    Filter(files, (f: File) => f.Size() > MaxFileSize)
  }

  /** Each file over the limit is reported as often as it was dropped, and no other file is. */
  lemma OversizedCounts(files: seq<File>)
    ensures forall f :: multiset(Oversized(files))[f] == if f.Size() > MaxFileSize then multiset(files)[f] else 0
  {
    FilterCounts(files, (f: File) => f.Size() > MaxFileSize);
  }

  function Names(files: seq<File>): seq<string> {
    seq(|files|, i requires 0 <= i < |files| => files[i].name)
  }

  function LoadingMessage(count: nat): string {
    "Processing " + NatToText(count) + " files..."
  }

  function ProgressEntry(f: File): string {
    "Processing " + f.name + "..."
  }

  function ProgressEntries(batch: seq<File>): (r: seq<string>)
    ensures |r| == |batch|
    ensures forall k :: 0 <= k < |batch| ==> r[k] == ProgressEntry(batch[k])
  {
    seq(|batch|, k requires 0 <= k < |batch| => ProgressEntry(batch[k]))
  }

  predicate MentionsAny(entry: string, batch: seq<File>) {
    exists k :: 0 <= k < |batch| && Contains(entry, batch[k].name)
  }

  /** `prev.filter(p => !batch.some(f => p.includes(f.name)))`. */
  function Prune(entries: seq<string>, batch: seq<File>): (r: seq<string>)
    ensures forall e :: e in r <==> e in entries && !MentionsAny(e, batch)
    ensures IsSubsequence(r, entries)
  {
    Filter(entries, e => !MentionsAny(e, batch))
  }

  /** Pruning keeps every copy of an entry that names none of the files and drops every copy of one
      that names some. */
  lemma PruneCounts(entries: seq<string>, batch: seq<File>)
    ensures forall e :: multiset(Prune(entries, batch))[e] == if MentionsAny(e, batch) then 0 else multiset(entries)[e]
  {
    FilterCounts(entries, e => !MentionsAny(e, batch));
  }

  /** The toast for a failed window: the error's message, after the name of the file it names for the
      two file-attributed kinds, and after a generic prefix for any other error. */
  function ErrorToast(e: Error): (t: string)
    ensures e.FileProcessingError? || e.AIProcessingError? ==>
              e.fileName + ": " <= t && t[|e.fileName| + 2..] == e.message
    ensures !(e.FileProcessingError? || e.AIProcessingError?) ==>
              BatchErrorPrefix <= t && t[|BatchErrorPrefix|..] == e.message
  {
    if e.FileProcessingError? || e.AIProcessingError? then e.fileName + ": " + e.message
    else BatchErrorPrefix + e.message
  }

  function InvoiceEvents(s: seq<Invoice>): seq<Event> {
    seq(|s|, k requires 0 <= k < |s| => AddInvoice(s[k]))
  }

  function ProductEvents(s: seq<Product>): seq<Event> {
    seq(|s|, k requires 0 <= k < |s| => AddProduct(s[k]))
  }

  function CustomerEvents(s: seq<Customer>): seq<Event> {
    seq(|s|, k requires 0 <= k < |s| => AddCustomer(s[k]))
  }

  /** The three `forEach` dispatch loops of a successful window. */
  function Dispatches(data: Extracted): seq<Event> {
    InvoiceEvents(data.invoices) + ProductEvents(data.products) + CustomerEvents(data.customers)
  }

  /** The events of a stretch of the handler, and the progress list it leaves. */
  datatype Run = Run(events: seq<Event>, progress: seq<string>)

  /** `acceptedFiles.slice(i, i + 3)`. */
  function Window(files: seq<File>, i: nat): seq<File>
    requires i < |files|
  {
    files[i..if i + MaxConcurrentProcessing < |files| then i + MaxConcurrentProcessing else |files|]
  }

  /** One window: its entries are appended to the progress list, the extractor is called, and then
      either its records are dispatched and the entries naming its files are dropped, or the error is
      toasted. */
  function WindowStep(batch: seq<File>, progress: seq<string>, extract: Extractor): Run {
    var started := progress + ProgressEntries(batch);
    match extract(batch)
    case Ok(data) =>
      var kept := Prune(started, batch);
      Run([Progress(started), Extract(batch)] + Dispatches(data) + [Progress(kept)], kept)
    case Err(e) =>
      Run([Progress(started), Extract(batch), ToastError(ErrorToast(e))], started)
  }

  /** What one window shows and does. It first shows the previous entries followed by one entry per
      file of the window, then calls the extractor on the window. On success it dispatches the records
      and keeps, in order, only the entries that name none of the window's files; on failure it toasts
      the error and every entry stays. */
  lemma WindowOutcome(batch: seq<File>, progress: seq<string>, extract: Extractor)
    ensures var run := WindowStep(batch, progress, extract);
      var started := progress + ProgressEntries(batch);
      |run.events| >= 3 && run.events[..2] == [Progress(started), Extract(batch)] &&
      (extract(batch).Ok? ==>
        run.events == [Progress(started), Extract(batch)] + Dispatches(extract(batch).value) + [Progress(run.progress)] &&
        IsSubsequence(run.progress, started) &&
        (forall e :: e in run.progress <==> e in started && !MentionsAny(e, batch)) &&
        forall e, k :: e in run.progress && 0 <= k < |batch| ==> !Contains(e, batch[k].name)) &&
      (extract(batch).Err? ==>
        run.progress == started &&
        run.events == [Progress(started), Extract(batch), ToastError(ErrorToast(extract(batch).error))])
  {
  }

  /** One iteration of the loop, as a function of the window and the progress list before it. */
  type Stepper = (seq<File>, seq<string>) -> Run

  function Steps(extract: Extractor): Stepper {
    (batch: seq<File>, progress: seq<string>) => WindowStep(batch, progress, extract)
  }

  /** The `for` loop from index `i` on, one window per iteration, `i += 3`. */
  function RunWindows(files: seq<File>, i: nat, progress: seq<string>, step: Stepper): Run
    decreases |files| - i
  {
    if i >= |files| then Run([], progress)
    else
      var first := step(Window(files, i), progress);
      var rest := RunWindows(files, i + MaxConcurrentProcessing, first.progress, step);
      Run(first.events + rest.events, rest.progress)
  }

  lemma StepsApply(extract: Extractor, batch: seq<File>, progress: seq<string>)
    ensures Steps(extract)(batch, progress) == WindowStep(batch, progress, extract)
  {
  }

  /** One turn of the loop: after the window at `i`, what remains to be done is the run from `i + 3`. */
  lemma RunWindowsStep(files: seq<File>, i: nat, progress: seq<string>, step: Stepper,
                       whole: seq<Event>, before: seq<Event>, after: seq<Event>)
    requires i < |files|
    requires whole == before + RunWindows(files, i, progress, step).events
    requires after == before + step(Window(files, i), progress).events
    ensures whole == after + RunWindows(files, i + MaxConcurrentProcessing, step(Window(files, i), progress).progress, step).events
    ensures RunWindows(files, i, progress, step).progress ==
            RunWindows(files, i + MaxConcurrentProcessing, step(Window(files, i), progress).progress, step).progress
  {
    var first := step(Window(files, i), progress);
    var rest := RunWindows(files, i + MaxConcurrentProcessing, first.progress, step);
    assert before + (first.events + rest.events) == (before + first.events) + rest.events;
  }

  /** Everything one drop does, in order. An oversized file stops the handler before the `try`,
      so neither the extractor nor the `finally` block runs. */
  function DropEvents(files: seq<File>, extract: Extractor): seq<Event> {
    var oversized := Oversized(files);
    if |oversized| > 0 then
      Opening + [ToastError(OversizePrefix + Join(Names(oversized), ", ")), SetLoading(false)]
    else
      Opening + [ToastLoading(LoadingMessage(|files|))] + RunWindows(files, 0, [], Steps(extract)).events + Closing
  }

  const Opening := [Progress([]), SetLoading(true), SetError(None)]
  const Closing := [ToastDismiss, ToastSuccess(DoneMessage), SetLoading(false), Progress([])]

  lemma DropEventsUnfold(files: seq<File>, extract: Extractor)
    ensures |Oversized(files)| > 0 ==>
              DropEvents(files, extract) ==
              Opening + [ToastError(OversizePrefix + Join(Names(Oversized(files)), ", "))] + [SetLoading(false)]
    ensures |Oversized(files)| == 0 ==>
              DropEvents(files, extract) ==
              Opening + [ToastLoading(LoadingMessage(|files|))] + RunWindows(files, 0, [], Steps(extract)).events + Closing
  {
  }

  // ---------------------------------------------------------------------------------------------
  // What a drop does

  /** The windows the loop hands to the extractor, from index `i` on. */
  function WindowsFrom(files: seq<File>, i: nat): seq<seq<File>>
    decreases |files| - i
  {
    if i >= |files| then [] else [Window(files, i)] + WindowsFrom(files, i + MaxConcurrentProcessing)
  }

  function Concat(windows: seq<seq<File>>): seq<File> {
    if windows == [] then [] else windows[0] + Concat(windows[1..])
  }

  lemma {:induction false} ConcatAppend(a: seq<seq<File>>, b: seq<seq<File>>)
    ensures Concat(a + b) == Concat(a) + Concat(b)
  {
    if a != [] {
      assert (a + b)[1..] == a[1..] + b;
      ConcatAppend(a[1..], b);
    } else {
      assert a + b == b;
    }
  }

  /** The windows cover the dropped files exactly, in order; each holds one to three files, and only
      the last may hold fewer than three. */
  lemma {:induction false} WindowsPartition(files: seq<File>, i: nat)
    requires i <= |files|
    ensures Concat(WindowsFrom(files, i)) == files[i..]
    ensures forall w :: w in WindowsFrom(files, i) ==> 1 <= |w| <= MaxConcurrentProcessing
    ensures forall k :: 0 <= k < |WindowsFrom(files, i)| - 1 ==> |WindowsFrom(files, i)[k]| == MaxConcurrentProcessing
    decreases |files| - i
  {
    if i < |files| {
      var ws := WindowsFrom(files, i);
      if i + MaxConcurrentProcessing < |files| {
        WindowsPartition(files, i + MaxConcurrentProcessing);
        assert files[i..] == files[i..i + MaxConcurrentProcessing] + files[i + MaxConcurrentProcessing..];
      } else {
        assert WindowsFrom(files, i + MaxConcurrentProcessing) == [];
      }
      assert ws[1..] == WindowsFrom(files, i + MaxConcurrentProcessing);
      assert Concat(ws) == ws[0] + Concat(ws[1..]);
    }
  }

  /** The batches passed to the extractor, in call order. */
  function Extracts(events: seq<Event>): seq<seq<File>> {
    if events == [] then [] else (if events[0].Extract? then [events[0].batch] else []) + Extracts(events[1..])
  }

  lemma {:induction false} ExtractsAppend(a: seq<Event>, b: seq<Event>)
    ensures Extracts(a + b) == Extracts(a) + Extracts(b)
  {
    if a != [] {
      assert (a + b)[1..] == a[1..] + b;
      ExtractsAppend(a[1..], b);
    } else {
      assert a + b == b;
    }
  }

  lemma {:induction false} ExtractsNone(events: seq<Event>)
    requires forall k :: 0 <= k < |events| ==> !events[k].Extract?
    ensures Extracts(events) == []
  {
    if events != [] {
      ExtractsNone(events[1..]);
    }
  }

  lemma ExtractsFramed(head: seq<Event>, middle: seq<Event>, tail: seq<Event>)
    requires forall k :: 0 <= k < |head| ==> !head[k].Extract?
    requires forall k :: 0 <= k < |tail| ==> !tail[k].Extract?
    ensures Extracts(head + middle + tail) == Extracts(middle)
  {
    ExtractsNone(head);
    ExtractsNone(tail);
    ExtractsAppend(head, middle);
    ExtractsAppend(head + middle, tail);
  }

  /** A window calls the extractor exactly once, on its own files. */
  lemma WindowStepExtracts(batch: seq<File>, progress: seq<string>, extract: Extractor)
    ensures Extracts(WindowStep(batch, progress, extract).events) == [batch]
  {
    var run := WindowStep(batch, progress, extract);
    var head := [Progress(progress + ProgressEntries(batch)), Extract(batch)];
    assert run.events == head + run.events[2..];
    ExtractsNone(run.events[2..]);
    ExtractsAppend(head, run.events[2..]);
    assert Extracts(head) == [batch] by {
      assert head[1..][1..] == [];
    }
  }

  lemma {:induction false} RunWindowsExtracts(files: seq<File>, i: nat, progress: seq<string>, extract: Extractor)
    ensures Extracts(RunWindows(files, i, progress, Steps(extract)).events) == WindowsFrom(files, i)
    decreases |files| - i
  {
    if i < |files| {
      var step := WindowStep(Window(files, i), progress, extract);
      assert Steps(extract)(Window(files, i), progress) == step;
      WindowStepExtracts(Window(files, i), progress, extract);
      RunWindowsExtracts(files, i + MaxConcurrentProcessing, step.progress, extract);
      ExtractsAppend(step.events, RunWindows(files, i + MaxConcurrentProcessing, step.progress, Steps(extract)).events);
    }
  }

  /** Without an oversized file, the extractor is called once per window, in order, whatever earlier
      windows returned: a failed window does not stop the loop. */
  lemma ExtractCallsAreWindows(files: seq<File>, extract: Extractor)
    requires forall f :: f in files ==> f.Size() <= MaxFileSize
    ensures Extracts(DropEvents(files, extract)) == WindowsFrom(files, 0)
    ensures Concat(Extracts(DropEvents(files, extract))) == files
  {
    NoneOversized(files);
    var head := [Progress([]), SetLoading(true), SetError(None), ToastLoading(LoadingMessage(|files|))];
    var middle := RunWindows(files, 0, [], Steps(extract)).events;
    var tail := [ToastDismiss, ToastSuccess(DoneMessage), SetLoading(false), Progress([])];
    assert DropEvents(files, extract) == head + middle + tail;
    ExtractsFramed(head, middle, tail);
    RunWindowsExtracts(files, 0, [], extract);
    WindowsPartition(files, 0);
  }

  lemma NoneOversized(files: seq<File>)
    requires forall f :: f in files ==> f.Size() <= MaxFileSize
    ensures Oversized(files) == []
  {
    var r := Oversized(files);
    assert forall k :: 0 <= k < |r| ==> r[k] in r;
  }

  /** A drop with a file over 10 MB is rejected before any extraction: the error toast lists the
      oversized names (in input order, by `Oversized`), there is no extractor call and no record
      dispatch, and the extractor has no influence on what happens. */
  lemma OversizedDropRejected(files: seq<File>, extract: Extractor, other: Extractor)
    requires exists f :: f in files && f.Size() > MaxFileSize
    ensures var events := DropEvents(files, extract);
      |events| == 5 && events[4] == SetLoading(false) &&
      events[3] == ToastError(OversizePrefix + Join(Names(Oversized(files)), ", ")) &&
      forall k :: 0 <= k < |events| ==>
        !events[k].Extract? && !events[k].AddInvoice? && !events[k].AddProduct? && !events[k].AddCustomer?
    ensures DropEvents(files, extract) == DropEvents(files, other)
  {
    var f :| f in files && f.Size() > MaxFileSize;
    assert f in Oversized(files);
    var message := OversizePrefix + Join(Names(Oversized(files)), ", ");
    DropEventsUnfold(files, extract);
    DropEventsUnfold(files, other);
    assert DropEvents(files, extract) ==
           [Progress([]), SetLoading(true), SetError(None), ToastError(message), SetLoading(false)];
  }

  /** The rank of a dispatch: invoices before products before customers. */
  function Rank(e: Event): nat {
    if e.AddInvoice? then 0 else if e.AddProduct? then 1 else 2
  }

  /** Within a window, all invoices are dispatched first, then all products, then all customers, each
      group in the order the extractor returned it. */
  lemma DispatchOrder(data: Extracted)
    ensures var d := Dispatches(data);
      |d| == |data.invoices| + |data.products| + |data.customers| &&
      (forall i, j :: 0 <= i < j < |d| ==> Rank(d[i]) <= Rank(d[j])) &&
      (forall k :: 0 <= k < |data.invoices| ==> d[k] == AddInvoice(data.invoices[k])) &&
      (forall k :: 0 <= k < |data.products| ==> d[|data.invoices| + k] == AddProduct(data.products[k])) &&
      (forall k :: 0 <= k < |data.customers| ==>
         d[|data.invoices| + |data.products| + k] == AddCustomer(data.customers[k]))
  {
    var d := Dispatches(data);
    var n1, n2 := |data.invoices|, |data.invoices| + |data.products|;
    assert forall k :: 0 <= k < |d| ==> Rank(d[k]) == if k < n1 then 0 else if k < n2 then 1 else 2;
  }

  /** The progress list is cleared when a drop starts and again when it ends; an oversized drop
      never shows an entry. */
  lemma ProgressClearedAtEnds(files: seq<File>, extract: Extractor)
    ensures var events := DropEvents(files, extract);
      events[0] == Progress([]) &&
      (|Oversized(files)| == 0 ==> events[|events| - 1] == Progress([])) &&
      (|Oversized(files)| > 0 ==> forall k :: 0 < k < |events| ==> !events[k].Progress?)
  {
  }

  /** The entries of a failed window are never removed: with six files whose first window fails and
      whose second succeeds, the list shown during the second window holds six entries. */
  lemma FailedWindowEntriesLinger(files: seq<File>, extract: Extractor)
    requires |files| == 6
    requires forall f :: f in files ==> f.Size() <= MaxFileSize
    requires extract(files[..3]).Err?
    ensures exists k :: (0 <= k < |DropEvents(files, extract)| &&
      DropEvents(files, extract)[k].Progress? && |DropEvents(files, extract)[k].entries| == 6)
  {
    NoneOversized(files);
    assert Window(files, 0) == files[..3];
    var first := WindowStep(files[..3], [], extract);
    assert |first.progress| == 3;
    assert Steps(extract)(files[..3], []) == first;
    var second := WindowStep(Window(files, 3), first.progress, extract);
    assert Steps(extract)(Window(files, 3), first.progress) == second;
    assert second.events[0] == Progress(first.progress + ProgressEntries(files[3..6]));
    var last := RunWindows(files, 6, second.progress, Steps(extract));
    assert RunWindows(files, 3, first.progress, Steps(extract)).events == second.events + last.events;
    var run := RunWindows(files, 0, [], Steps(extract));
    assert run.events == first.events + (second.events + last.events);
    var events := DropEvents(files, extract);
    var k := 4 + |first.events|;
    assert events[k] == second.events[0];
  }

  // ---------------------------------------------------------------------------------------------
  // The handler

  /** The component's state: the progress list, and the log of what it has done. */
  class Uploader {
    var progress: seq<string>
    var log: seq<Event>

    constructor ()
      ensures progress == [] && log == []
    {
      progress := [];
      log := [];
    }

    method Emit(e: Event)
      modifies this
      ensures log == old(log) + [e] && progress == old(progress)
    {
      log := log + [e];
    }

    method SetProgress(entries: seq<string>)
      modifies this
      ensures log == old(log) + [Progress(entries)] && progress == entries
    {
      progress := entries;
      log := log + [Progress(entries)];
    }

    /** `onDrop`. */
    method OnDrop(acceptedFiles: seq<File>, extract: Extractor)
      modifies this
      ensures log == old(log) + DropEvents(acceptedFiles, extract)
      ensures progress == []
    {
      Open();
      var oversized := Oversized(acceptedFiles);
      DropEventsUnfold(acceptedFiles, extract);
      if |oversized| > 0 {
        RejectOversized(oversized);
        return;
      }
      ProcessAccepted(acceptedFiles, extract);
    }

    /** The size guard's branch: one error toast naming the files, then the loading flag is cleared. */
    method RejectOversized(oversized: seq<File>)
      modifies this
      ensures log == old(log) + [ToastError(OversizePrefix + Join(Names(oversized), ", ")), SetLoading(false)]
      ensures progress == old(progress)
    {
      Emit(ToastError(OversizePrefix + Join(Names(oversized), ", ")));
      Emit(SetLoading(false));
    }

    /** The `try` block from the loading toast on, and the `finally` block. */
    method ProcessAccepted(acceptedFiles: seq<File>, extract: Extractor)
      requires progress == []
      modifies this
      ensures log == old(log) + [ToastLoading(LoadingMessage(|acceptedFiles|))] +
                     RunWindows(acceptedFiles, 0, [], Steps(extract)).events + Closing
      ensures progress == []
    {
      Emit(ToastLoading(LoadingMessage(|acceptedFiles|)));
      ProcessWindows(acceptedFiles, extract);
      Close();
    }

    /** The first lines of `onDrop`: clear the progress list, set the loading flag, clear the error. */
    method Open()
      modifies this
      ensures log == old(log) + Opening && progress == []
    {
      SetProgress([]);
      Emit(SetLoading(true));
      Emit(SetError(None));
    }

    /** The end of the `try` block and the `finally` block. */
    method Close()
      modifies this
      ensures log == old(log) + Closing && progress == []
    {
      Emit(ToastDismiss);
      Emit(ToastSuccess(DoneMessage));
      Emit(SetLoading(false));
      SetProgress([]);
    }

    /** The `for` loop over the windows, `i += 3`, starting from an empty progress list. */
    method ProcessWindows(acceptedFiles: seq<File>, extract: Extractor)
      requires progress == []
      modifies this
      ensures log == old(log) + RunWindows(acceptedFiles, 0, [], Steps(extract)).events
      ensures progress == RunWindows(acceptedFiles, 0, [], Steps(extract)).progress
    {
      ghost var all := RunWindows(acceptedFiles, 0, [], Steps(extract));
      var i := 0;
      while i < |acceptedFiles|
        invariant old(log) + all.events == log + RunWindows(acceptedFiles, i, progress, Steps(extract)).events
        invariant all.progress == RunWindows(acceptedFiles, i, progress, Steps(extract)).progress
        decreases |acceptedFiles| - i
      {
        var batch := Window(acceptedFiles, i);
        ghost var before, was := log, progress;
        ProcessWindow(batch, extract);
        StepsApply(extract, batch, was);
        RunWindowsStep(acceptedFiles, i, was, Steps(extract), old(log) + all.events, before, log);
        i := i + MaxConcurrentProcessing;
      }
    }

    /** One iteration: announce the window, extract, then dispatch and prune, or toast the error. */
    method ProcessWindow(batch: seq<File>, extract: Extractor)
      modifies this
      ensures log == old(log) + WindowStep(batch, old(progress), extract).events
      ensures progress == WindowStep(batch, old(progress), extract).progress
    {
      SetProgress(progress + ProgressEntries(batch));
      Emit(Extract(batch));
      var result := extract(batch);
      if result.Ok? {
        var data := result.value;
        DispatchAll(data);
        SetProgress(Prune(progress, batch));
      } else {
        Emit(ToastError(ErrorToast(result.error)));
      }
    }

    /** The three `forEach` loops: every invoice, then every product, then every customer. */
    method DispatchAll(data: Extracted)
      modifies this
      ensures log == old(log) + Dispatches(data) && progress == old(progress)
    {
      for j := 0 to |data.invoices|
        invariant log == old(log) + InvoiceEvents(data.invoices[..j]) && progress == old(progress)
      {
        Emit(AddInvoice(data.invoices[j]));
        assert InvoiceEvents(data.invoices[..j + 1]) == InvoiceEvents(data.invoices[..j]) + [AddInvoice(data.invoices[j])];
      }
      assert data.invoices[..|data.invoices|] == data.invoices;
      ghost var afterInvoices := log;
      for j := 0 to |data.products|
        invariant log == afterInvoices + ProductEvents(data.products[..j]) && progress == old(progress)
      {
        Emit(AddProduct(data.products[j]));
        assert ProductEvents(data.products[..j + 1]) == ProductEvents(data.products[..j]) + [AddProduct(data.products[j])];
      }
      assert data.products[..|data.products|] == data.products;
      ghost var afterProducts := log;
      for j := 0 to |data.customers|
        invariant log == afterProducts + CustomerEvents(data.customers[..j]) && progress == old(progress)
      {
        Emit(AddCustomer(data.customers[j]));
        assert CustomerEvents(data.customers[..j + 1]) == CustomerEvents(data.customers[..j]) + [AddCustomer(data.customers[j])];
      }
      assert data.customers[..|data.customers|] == data.customers;
    }
  }
}
