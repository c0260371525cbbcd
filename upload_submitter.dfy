/**
 * The upload page: the selected-file list, and the upload loop that, for one file after
 * another, stores the file, inserts a `processing` record and dispatches the enrichment
 * worker, inside one try block that the first failure leaves.
 *
 * The hosted storage, table and function are not modelled as state: the loop's calls to
 * them are recorded, in order, as `Effect`s, and what each call answers for the i-th file
 * (the clock reading, the id of the inserted row, which call fails and with what message)
 * is the input `world(i)`.
 */
module UploadSubmitter {
  import opened Wrappers
  import opened AnalysisRecords

  /** A UTF-16 code unit. JavaScript strings, and so their lengths and `substring`
      positions, count these units; a character outside the Basic Multilingual Plane is
      two of them (a surrogate pair). */
  newtype CodeUnit = x: int | 0 <= x < 0x1_0000

  /** A JavaScript string, as the code units it is made of. */
  type JsText = seq<CodeUnit>

  /** A selected file; `text` is the string `file.text()` decodes. */
  datatype LocalFile = LocalFile(name: string, size: nat, mimeType: string, text: JsText)

  datatype User = User(id: string)

  /** Which backend call fails while a file is processed, with the error's message. */
  datatype Fault =
    | NoFault
    | StorageFault(message: string)
    | InsertFault(message: string)
    | InvokeFault(message: string)

  /** What the outside world answers while one file is processed. */
  datatype FileWorld = FileWorld(now: nat, newId: string, fault: Fault)

  /** The body sent to the enrichment worker. */
  datatype WorkerRequest = WorkerRequest(analysisId: string, fileContent: JsText)

  /** A call the page makes, in the order it makes them. */
  datatype Effect =
    | StoreFile(path: string, file: LocalFile)
    | InsertRecord(record: NewAnalysis)
    | InvokeWorker(request: WorkerRequest)
    | ToastSuccess(message: string)
    | NavigateLater(route: string)
    | ToastError(message: string)

  /** The longest text forwarded to the worker, in code units. */
  const MaxContent: nat := 50000

  const UploadFailed: string := "Failed to upload and analyze files"

  // ---------------------------------------------------------------------------
  // Paths and payloads
  // ---------------------------------------------------------------------------

  predicate IsDigit(c: char) {
    '0' <= c <= '9'
  }

  function DigitChar(d: nat): (c: char)
    requires d < 10
    ensures IsDigit(c)
  {
    ('0' as int + d) as char
  }

  function DigitValue(c: char): (d: nat)
    requires IsDigit(c)
    ensures d < 10
  {
    (c as int - '0' as int) as nat
  }

  /** The decimal rendering of a clock reading in a template literal. */
  function DecimalDigits(n: nat): (s: string)
    ensures |s| >= 1
    ensures forall i :: 0 <= i < |s| ==> IsDigit(s[i])
  {
    if n < 10 then [DigitChar(n)] else DecimalDigits(n / 10) + [DigitChar(n % 10)]
  }

  /** Reading decimal digits back. */
  function ParseDecimal(s: string): nat
    requires forall i :: 0 <= i < |s| ==> IsDigit(s[i])
  {
    if s == [] then 0 else 10 * ParseDecimal(s[..|s| - 1]) + DigitValue(s[|s| - 1])
  }

  lemma {:induction false} DecimalRoundTrip(n: nat)
    ensures ParseDecimal(DecimalDigits(n)) == n
  {
    var s := DecimalDigits(n);
    if n < 10 {
      assert s[..|s| - 1] == [];
    } else {
      assert s[..|s| - 1] == DecimalDigits(n / 10);
      DecimalRoundTrip(n / 10);
    }
  }

  /** Different clock readings render differently. */
  lemma DecimalInjective(a: nat, b: nat)
    requires DecimalDigits(a) == DecimalDigits(b)
    ensures a == b
  {
    DecimalRoundTrip(a);
    DecimalRoundTrip(b);
  }

  /** The storage path: owner id, a slash, the clock reading, an underscore, the name. */
  function StoragePath(userId: string, now: nat, name: string): string {
    userId + "/" + DecimalDigits(now) + "_" + name
  }

  /** A storage path lies in the owner's folder and ends with the file's own name, after
      the clock reading and an underscore. */
  lemma StoragePathLayout(userId: string, now: nat, name: string)
    ensures var p, d := StoragePath(userId, now, name), DecimalDigits(now);
      && |p| == |userId| + 1 + |d| + 1 + |name|
      && p[..|userId| + 1] == userId + "/"
      && p[|userId| + 1..|userId| + 1 + |d|] == d
      && p[|userId| + 1 + |d|] == '_'
      && p[|p| - |name|..] == name
  {
  }

  /** The position of the first underscore in `s`, or `|s|`. */
  function FirstUnderscore(s: string): (k: nat)
    ensures k <= |s|
  {
    if s == [] then 0 else if s[0] == '_' then 0 else 1 + FirstUnderscore(s[1..])
  }

  lemma {:induction false} DigitsEndAtUnderscore(d: string, rest: string)
    requires forall i :: 0 <= i < |d| ==> IsDigit(d[i])
    ensures FirstUnderscore(d + "_" + rest) == |d|
  {
    if d != [] {
      assert (d + "_" + rest)[1..] == d[1..] + "_" + rest;
      DigitsEndAtUnderscore(d[1..], rest);
    }
  }

  /** Two uploads of the same file name by the same owner share a storage path only if
      they read the same clock value. */
  lemma StoragePathDeterminesClock(userId: string, t1: nat, t2: nat, name: string)
    requires StoragePath(userId, t1, name) == StoragePath(userId, t2, name)
    ensures t1 == t2
  {
    var d1, d2 := DecimalDigits(t1), DecimalDigits(t2);
    var k := |userId| + 1;
    var s1, s2 := d1 + "_" + name, d2 + "_" + name;
    assert StoragePath(userId, t1, name)[k..] == s1;
    assert StoragePath(userId, t2, name)[k..] == s2;
    DigitsEndAtUnderscore(d1, name);
    DigitsEndAtUnderscore(d2, name);
    assert |d1| == |d2|;
    assert d1 == s1[..|d1|] == s2[..|d2|] == d2;
    DecimalInjective(t1, t2);
  }

  /** `fileContent.substring(0, 50000)`: the first 50000 code units. The cut may fall
      between the two halves of a surrogate pair, which then leaves a lone high surrogate
      at the end. */
  function Truncate(text: JsText): (r: JsText)
    ensures |r| == if |text| <= MaxContent then |text| else MaxContent
    ensures r == text[..|r|]
  {
    if |text| <= MaxContent then text else text[..MaxContent]
  }

  /** Truncation keeps short texts whole and is idempotent. */
  lemma TruncateProperties(text: JsText)
    ensures |text| <= MaxContent ==> Truncate(text) == text
    ensures Truncate(Truncate(text)) == Truncate(text)
    ensures |Truncate(text)| <= MaxContent
  {
  }

  /** A text whose 50000th code unit is the high half of a surrogate pair is cut inside
      the pair: the forwarded text ends with the lone high surrogate. */
  lemma TruncateSplitsSurrogatePair(prefix: JsText, high: CodeUnit, low: CodeUnit)
    requires |prefix| == MaxContent - 1
    ensures var r := Truncate(prefix + [high, low]);
      |r| == MaxContent && r == prefix + [high]
  {
    assert (prefix + [high, low])[..MaxContent] == prefix + [high];
  }

  /** The insert payload for a file. */
  function RecordFor(userId: string, file: LocalFile, path: string): (r: NewAnalysis)
    ensures r.status == Processing && r.userId == userId && r.filePath == path
    ensures r.fileName == file.name && r.fileSize == file.size && r.fileType == file.mimeType
  {
    NewAnalysis(userId, file.name, path, file.size, file.mimeType, Processing)
  }

  // ---------------------------------------------------------------------------
  // The upload loop, as a specification
  // ---------------------------------------------------------------------------

  /** Every call the loop body makes for a file that goes through. */
  function AllSteps(userId: string, file: LocalFile, w: FileWorld): (all: seq<Effect>)
    ensures |all| == 5
  {
    var path := StoragePath(userId, w.now, file.name);
    [ StoreFile(path, file),
      InsertRecord(RecordFor(userId, file, path)),
      InvokeWorker(WorkerRequest(w.newId, Truncate(file.text))),
      ToastSuccess("Analysis started for " + file.name),
      NavigateLater("/business-plan-analysis/" + w.newId) ]
  }

  /** The calls made for one file and the error that ends the loop there, if any. */
  datatype Batch = Batch(effects: seq<Effect>, failure: Option<string>)

  /** One file: storage upload, then insert, then invoke; a failing call is made but the
      calls after it are not. */
  function FileSteps(userId: string, file: LocalFile, w: FileWorld): (b: Batch)
    ensures |b.effects| <= 5
    ensures b.effects == AllSteps(userId, file, w)[..|b.effects|]
    ensures b.failure.None? <==> w.fault.NoFault?
    ensures w.fault.NoFault? ==> |b.effects| == 5
    ensures w.fault.StorageFault? ==> |b.effects| == 1 && b.failure == Some(w.fault.message)
    ensures w.fault.InsertFault? ==> |b.effects| == 2 && b.failure == Some(w.fault.message)
    ensures w.fault.InvokeFault? ==> |b.effects| == 3 && b.failure == Some(w.fault.message)
  {
    var all := AllSteps(userId, file, w);
    match w.fault
    case NoFault => Batch(all, None)
    case StorageFault(m) => Batch(all[..1], Some(m))
    case InsertFault(m) => Batch(all[..2], Some(m))
    case InvokeFault(m) => Batch(all[..3], Some(m))
  }

  /** The files from index `i` on, stopping at the first failure. */
  function BatchFrom(userId: string, files: seq<LocalFile>, world: nat -> FileWorld, i: nat): Batch
    requires i <= |files|
    decreases |files| - i
  {
    if i == |files| then Batch([], None)
    else
      var here := FileSteps(userId, files[i], world(i));
      if here.failure.Some? then here
      else
        var rest := BatchFrom(userId, files, world, i + 1);
        Batch(here.effects + rest.effects, rest.failure)
  }

  /** The message of the error toast: the error's message, or a default for an empty one. */
  function ErrorToast(message: string): (t: string)
    ensures t != ""
    ensures message != "" ==> t == message
  {
    if message != "" then message else UploadFailed
  }

  /** Everything `handleUpload` does: nothing without a user or files; otherwise the batch,
      followed by an error toast if it stopped early. */
  function UploadEffects(user: Option<User>, files: seq<LocalFile>, world: nat -> FileWorld): (e: seq<Effect>)
    ensures user.None? || files == [] ==> e == []
  {
    if user.None? || files == [] then []
    else
      var b := BatchFrom(user.value.id, files, world, 0);
      b.effects + (if b.failure.Some? then [ToastError(ErrorToast(b.failure.value))] else [])
  }

  // ---------------------------------------------------------------------------
  // What the batch does, as properties
  // ---------------------------------------------------------------------------

  /** The index of the first file, from `i` on, whose processing fails, or `|files|`. */
  function FirstFailure(files: seq<LocalFile>, world: nat -> FileWorld, i: nat): (k: nat)
    requires i <= |files|
    ensures i <= k <= |files|
    ensures forall j :: i <= j < k ==> world(j).fault.NoFault?
    ensures k < |files| ==> !world(k).fault.NoFault?
    decreases |files| - i
  {
    if i == |files| || !world(i).fault.NoFault? then i else FirstFailure(files, world, i + 1)
  }

  /** The insert requests made, in order, whether or not the database accepted them. */
  function Inserted(effects: seq<Effect>): seq<NewAnalysis> {
    if effects == [] then []
    else (if effects[0].InsertRecord? then [effects[0].record] else []) + Inserted(effects[1..])
  }

  /** The worker invocations made, in order, whether or not they succeeded. */
  function Invoked(effects: seq<Effect>): seq<WorkerRequest> {
    if effects == [] then []
    else (if effects[0].InvokeWorker? then [effects[0].request] else []) + Invoked(effects[1..])
  }

  /** The storage uploads attempted, by path, in order, whether or not they succeeded. */
  function Stored(effects: seq<Effect>): seq<string> {
    if effects == [] then []
    else (if effects[0].StoreFile? then [effects[0].path] else []) + Stored(effects[1..])
  }

  lemma {:induction false} ProjectionsDistribute(a: seq<Effect>, b: seq<Effect>)
    ensures Inserted(a + b) == Inserted(a) + Inserted(b)
    ensures Invoked(a + b) == Invoked(a) + Invoked(b)
    ensures Stored(a + b) == Stored(a) + Stored(b)
    decreases |a|
  {
    if a != [] {
      assert (a + b)[0] == a[0];
      assert (a + b)[1..] == a[1..] + b;
      ProjectionsDistribute(a[1..], b);
    } else {
      assert a + b == b;
    }
  }

  /** The storage paths of files `i` up to `m`, in order. */
  function PathsFrom(userId: string, files: seq<LocalFile>, world: nat -> FileWorld, i: nat, m: nat): seq<string>
    requires m <= |files|
    decreases m - i
  {
    if i >= m then [] else [StoragePath(userId, world(i).now, files[i].name)] + PathsFrom(userId, files, world, i + 1, m)
  }

  /** The insert payloads of files `i` up to `m`, in order. */
  function RecordsFrom(userId: string, files: seq<LocalFile>, world: nat -> FileWorld, i: nat, m: nat): seq<NewAnalysis>
    requires m <= |files|
    decreases m - i
  {
    if i >= m then []
    else [RecordFor(userId, files[i], StoragePath(userId, world(i).now, files[i].name))]
         + RecordsFrom(userId, files, world, i + 1, m)
  }

  /** The worker requests of files `i` up to `m`, in order. */
  function RequestsFrom(files: seq<LocalFile>, world: nat -> FileWorld, i: nat, m: nat): seq<WorkerRequest>
    requires m <= |files|
    decreases m - i
  {
    if i >= m then [] else [WorkerRequest(world(i).newId, Truncate(files[i].text))] + RequestsFrom(files, world, i + 1, m)
  }

  /** What the calls for one file add to each projection: an upload is always attempted,
      an insert is requested unless the upload failed, and the worker is invoked unless
      the upload or the insert failed. */
  lemma FileStepsProjections(userId: string, file: LocalFile, w: FileWorld)
    ensures var b := FileSteps(userId, file, w).effects;
            var path := StoragePath(userId, w.now, file.name);
      && Stored(b) == [path]
      && Inserted(b) == (if w.fault.StorageFault? then [] else [RecordFor(userId, file, path)])
      && Invoked(b) == (if w.fault.StorageFault? || w.fault.InsertFault? then []
                        else [WorkerRequest(w.newId, Truncate(file.text))])
  {
    StepsProjections(AllSteps(userId, file, w));
  }

  /** The projections of each prefix of a storage / insert / invoke / toast / navigate run. */
  lemma StepsProjections(e: seq<Effect>)
    requires |e| == 5 && e[0].StoreFile? && e[1].InsertRecord? && e[2].InvokeWorker?
    requires e[3].ToastSuccess? && e[4].NavigateLater?
    ensures Stored(e[..1]) == [e[0].path] && Inserted(e[..1]) == [] && Invoked(e[..1]) == []
    ensures Stored(e[..2]) == [e[0].path] && Inserted(e[..2]) == [e[1].record] && Invoked(e[..2]) == []
    ensures Stored(e[..3]) == [e[0].path] && Inserted(e[..3]) == [e[1].record] && Invoked(e[..3]) == [e[2].request]
    ensures Stored(e) == [e[0].path] && Inserted(e) == [e[1].record] && Invoked(e) == [e[2].request]
  {
    ProjectionsOfOne(e[0]);
    assert e[..1] == [e[0]];
    AppendStep(e, 1);
    AppendStep(e, 2);
    AppendStep(e, 3);
    AppendStep(e, 4);
    assert e == e[..5];
  }

  lemma AppendStep(e: seq<Effect>, k: nat)
    requires k < |e|
    ensures Stored(e[..k + 1]) == Stored(e[..k]) + Stored([e[k]])
    ensures Inserted(e[..k + 1]) == Inserted(e[..k]) + Inserted([e[k]])
    ensures Invoked(e[..k + 1]) == Invoked(e[..k]) + Invoked([e[k]])
  {
    ProjectionsDistribute(e[..k], [e[k]]);
    assert e[..k + 1] == e[..k] + [e[k]];
  }

  lemma ProjectionsOfOne(e: Effect)
    ensures Stored([e]) == if e.StoreFile? then [e.path] else []
    ensures Inserted([e]) == if e.InsertRecord? then [e.record] else []
    ensures Invoked([e]) == if e.InvokeWorker? then [e.request] else []
  {
    assert [e][1..] == [];
  }

  /** The batch stops at the first failing file k and reports k's error. */
  lemma {:induction false} BatchReportsFirstFailure(userId: string, files: seq<LocalFile>, world: nat -> FileWorld, i: nat)
    requires i <= |files|
    ensures var k := FirstFailure(files, world, i);
      BatchFrom(userId, files, world, i).failure == (if k < |files| then Some(world(k).fault.message) else None)
    decreases |files| - i
  {
    if i < |files| && world(i).fault.NoFault? {
      BatchReportsFirstFailure(userId, files, world, i + 1);
    }
  }

  /** An upload is attempted for every file up to and including the failing one, in
      order; no file after it is touched. */
  lemma {:induction false} BatchStoresUpToFailure(userId: string, files: seq<LocalFile>, world: nat -> FileWorld, i: nat)
    requires i <= |files|
    ensures var k := FirstFailure(files, world, i);
      Stored(BatchFrom(userId, files, world, i).effects)
        == PathsFrom(userId, files, world, i, if k < |files| then k + 1 else k)
    decreases |files| - i
  {
    if i < |files| {
      FileStepsProjections(userId, files[i], world(i));
      if world(i).fault.NoFault? {
        BatchStoresUpToFailure(userId, files, world, i + 1);
        ProjectionsDistribute(FileSteps(userId, files[i], world(i)).effects, BatchFrom(userId, files, world, i + 1).effects);
      }
    }
  }

  /** An insert is requested for every file before the failing one, and for the failing
      one when its storage upload succeeded; nothing requested is ever rolled back. */
  lemma {:induction false} BatchRecordsBeforeFailure(userId: string, files: seq<LocalFile>, world: nat -> FileWorld, i: nat)
    requires i <= |files|
    ensures var k := FirstFailure(files, world, i);
      Inserted(BatchFrom(userId, files, world, i).effects)
        == RecordsFrom(userId, files, world, i, k)
           + (if k < |files| && !world(k).fault.StorageFault?
              then [RecordFor(userId, files[k], StoragePath(userId, world(k).now, files[k].name))] else [])
    decreases |files| - i
  {
    if i < |files| {
      FileStepsProjections(userId, files[i], world(i));
      if world(i).fault.NoFault? {
        BatchRecordsBeforeFailure(userId, files, world, i + 1);
        ProjectionsDistribute(FileSteps(userId, files[i], world(i)).effects, BatchFrom(userId, files, world, i + 1).effects);
      }
    }
  }

  /** The worker is invoked for every file before the failing one, and for the failing
      one only when it is that invocation itself that failed. */
  lemma {:induction false} BatchDispatchesBeforeFailure(userId: string, files: seq<LocalFile>, world: nat -> FileWorld, i: nat)
    requires i <= |files|
    ensures var k := FirstFailure(files, world, i);
      Invoked(BatchFrom(userId, files, world, i).effects)
        == RequestsFrom(files, world, i, k)
           + (if k < |files| && world(k).fault.InvokeFault?
              then [WorkerRequest(world(k).newId, Truncate(files[k].text))] else [])
    decreases |files| - i
  {
    if i < |files| {
      FileStepsProjections(userId, files[i], world(i));
      if world(i).fault.NoFault? {
        BatchDispatchesBeforeFailure(userId, files, world, i + 1);
        ProjectionsDistribute(FileSteps(userId, files[i], world(i)).effects, BatchFrom(userId, files, world, i + 1).effects);
      }
    }
  }

  // ---------------------------------------------------------------------------
  // The selection list
  // ---------------------------------------------------------------------------

  /** `files.filter((_, i) => i !== index)`, with the position counted from `offset`. */
  function KeepOthers(files: seq<LocalFile>, index: int, offset: int): (r: seq<LocalFile>)
    ensures |r| <= |files|
  {
    if files == [] then []
    else (if offset == index then [] else [files[0]]) + KeepOthers(files[1..], index, offset + 1)
  }

  /** An index outside the positions of the list removes nothing. */
  lemma {:induction false} KeepOthersOutside(files: seq<LocalFile>, index: int, offset: int)
    requires !(offset <= index < offset + |files|)
    ensures KeepOthers(files, index, offset) == files
    decreases |files|
  {
    if files != [] {
      KeepOthersOutside(files[1..], index, offset + 1);
      assert files == [files[0]] + files[1..];
    }
  }

  /** Removing at a valid position drops exactly that file and keeps the rest in order. */
  lemma {:induction false} KeepOthersDropsIndex(files: seq<LocalFile>, index: int, offset: int)
    requires offset <= index < offset + |files|
    ensures KeepOthers(files, index, offset) == files[..index - offset] + files[index - offset + 1..]
    decreases |files|
  {
    if index == offset {
      KeepOthersOutside(files[1..], index, offset + 1);
      assert files[..0] + files[1..] == files[1..];
    } else {
      KeepOthersDropsIndex(files[1..], index, offset + 1);
      assert files[..index - offset] == [files[0]] + files[1..][..index - offset - 1];
      assert files[index - offset + 1..] == files[1..][index - offset..];
    }
  }

  /** The loop body for one file: each call is made only if the one before it succeeded. */
  method ProcessFile(userId: string, file: LocalFile, w: FileWorld) returns (steps: seq<Effect>, failure: Option<string>)
    ensures Batch(steps, failure) == FileSteps(userId, file, w)
  {
    var path := StoragePath(userId, w.now, file.name);
    steps := [StoreFile(path, file)];
    failure := None;
    if w.fault.StorageFault? {
      failure := Some(w.fault.message);
      return;
    }
    steps := steps + [InsertRecord(RecordFor(userId, file, path))];
    if w.fault.InsertFault? {
      failure := Some(w.fault.message);
      return;
    }
    steps := steps + [InvokeWorker(WorkerRequest(w.newId, Truncate(file.text)))];
    if w.fault.InvokeFault? {
      failure := Some(w.fault.message);
      return;
    }
    steps := steps + [ToastSuccess("Analysis started for " + file.name),
                      NavigateLater("/business-plan-analysis/" + w.newId)];
  }

  /** One file that goes through extends the batch's prefix by its calls. */
  lemma BatchFromStep(userId: string, files: seq<LocalFile>, world: nat -> FileWorld, i: nat, before: seq<Effect>)
    requires i < |files| && world(i).fault.NoFault?
    ensures var here, rest := FileSteps(userId, files[i], world(i)), BatchFrom(userId, files, world, i + 1);
      Batch(before + BatchFrom(userId, files, world, i).effects, BatchFrom(userId, files, world, i).failure)
        == Batch((before + here.effects) + rest.effects, rest.failure)
  {
    var here, rest := FileSteps(userId, files[i], world(i)), BatchFrom(userId, files, world, i + 1);
    assert BatchFrom(userId, files, world, i) == Batch(here.effects + rest.effects, rest.failure);
    assert before + (here.effects + rest.effects) == (before + here.effects) + rest.effects;
  }

  /** The page's state: the selection and the busy flag. */
  class UploadPage {
    var uploading: bool
    var selectedFiles: seq<LocalFile>

    constructor ()
      ensures !uploading && selectedFiles == []
    {
      uploading := false;
      selectedFiles := [];
    }

    /** `handleFileSelect` and `handleDrop`: a chosen list replaces the selection; an
        event without a file list leaves it. */
    method ChooseFiles(files: Option<seq<LocalFile>>)
      modifies this
      ensures selectedFiles == if files.Some? then files.value else old(selectedFiles)
      ensures uploading == old(uploading)
    {
      if files.Some? {
        selectedFiles := files.value;
      }
    }

    /** The Remove button of the file at `index`. */
    method RemoveFile(index: int)
      modifies this
      ensures 0 <= index < |old(selectedFiles)| ==>
                selectedFiles == old(selectedFiles)[..index] + old(selectedFiles)[index + 1..]
      ensures !(0 <= index < |old(selectedFiles)|) ==> selectedFiles == old(selectedFiles)
      ensures uploading == old(uploading)
    {
      if 0 <= index < |selectedFiles| {
        KeepOthersDropsIndex(selectedFiles, index, 0);
      } else {
        KeepOthersOutside(selectedFiles, index, 0);
      }
      selectedFiles := KeepOthers(selectedFiles, index, 0);
    }

    /** `handleUpload`. `uploading` is set for the whole loop and cleared afterwards,
        whether the loop finished or stopped at a failure. */
    method HandleUpload(user: Option<User>, world: nat -> FileWorld) returns (effects: seq<Effect>)
      modifies this
      ensures effects == UploadEffects(user, old(selectedFiles), world)
      ensures selectedFiles == old(selectedFiles)
      ensures uploading == (if user.None? || old(selectedFiles) == [] then old(uploading) else false)
    {
      if user.None? || |selectedFiles| == 0 {
        return [];
      }
      var userId := user.value.id;
      var files := selectedFiles;
      uploading := true;
      effects := [];
      var failure: Option<string> := None;
      var i := 0;
      while i < |files| && failure.None?
        invariant 0 <= i <= |files|
        invariant uploading && selectedFiles == files
        invariant failure.None? ==>
          BatchFrom(userId, files, world, 0)
            == Batch(effects + BatchFrom(userId, files, world, i).effects, BatchFrom(userId, files, world, i).failure)
        invariant failure.Some? ==> BatchFrom(userId, files, world, 0) == Batch(effects, failure)
        decreases |files| - i, if failure.None? then 1 else 0
      {
        ghost var before := effects;
        var steps;
        steps, failure := ProcessFile(userId, files[i], world(i));
        effects := effects + steps;
        if failure.None? {
          BatchFromStep(userId, files, world, i, before);
          i := i + 1;
        }
      }
      assert failure.None? ==> BatchFrom(userId, files, world, i) == Batch([], None) && effects + [] == effects;
      if failure.Some? {
        effects := effects + [ToastError(ErrorToast(failure.value))];
      }
      uploading := false;
    }
  }
}
