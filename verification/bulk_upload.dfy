/**
 * The bulk ingestion pipeline of `BulkUploadForm`: a queue of chosen files, one
 * category for the whole batch, and a sequential run that checks each derived
 * name, uploads the image, registers the product and records one terminal status
 * per started item, stopping before the first item that starts after the stop
 * flag is raised.
 *
 * The collaborators are oracles: the run receives, per queue item, what the name
 * check, the JPEG conversion, the upload and the registration will answer, and it
 * logs every request it sends (`calls`). The stop flag is the parameter `stopAt`:
 * the check at the top of item `i` sees the flag raised exactly when `i >= stopAt`.
 */
module BulkUpload {
  import opened Wrappers
  import opened Strings
  import opened Seqs
  import opened Services

  datatype Status = Pending | Processing | Success | Skipped | Error

  predicate IsTerminal(s: Status)
  {
    s == Success || s == Skipped || s == Error
  }

  /** One queued file; `fileName` stands for the file handle and its preview. */
  datatype QueueItem = QueueItem(id: string, fileName: string, derivedName: string, status: Status, message: string)

  /** A file picked in the file input, with the random id the form draws for it. */
  datatype ChosenFile = ChosenFile(id: string, name: string)

  /** What the collaborators answer for one item, in the order the run asks them. */
  datatype ItemOutcome = ItemOutcome(check: NameCheck, converted: bool, upload: UploadResult, add: AddResult)

  datatype BatchResult = BatchResult(added: nat, skipped: nat, errors: nat)

  /** One status write to the queue, as the list view observes it. */
  datatype StatusUpdate = StatusUpdate(id: string, status: Status)

  const CategoryMissing: string := "Please select or create a category first."

  // ---------------------------------------------------------------------------
  // Name derivation: the file name without its extension, upper-cased.

  /** `i` is where `\.[^/.]+$` matches: a dot, then one or more characters up to the end, none a dot or a slash. */
  predicate ExtensionAt(s: string, i: int)
  {
    0 <= i < |s| - 1 && s[i] == '.' && forall k :: i < k < |s| ==> s[k] != '.' && s[k] != '/'
  }

  /** Scans backwards from `j` for the dot that starts the extension. */
  function FindExtension(s: string, j: int): (r: Option<nat>)
    requires -1 <= j < |s|
    requires forall k :: j < k < |s| ==> s[k] != '.' && s[k] != '/'
    ensures r.Some? ==> ExtensionAt(s, r.value)
    ensures r.None? ==> forall i :: !ExtensionAt(s, i)
    decreases j + 1
  {
    if j < 0 || s[j] == '/' then None
    else if s[j] == '.' then (if j < |s| - 1 then Some(j) else None)
    else FindExtension(s, j - 1)
  }

  /** `name.replace(/\.[^/.]+$/, "")`. */
  function StripExtension(s: string): (r: string)
    ensures (exists i :: ExtensionAt(s, i) && r == s[..i]) || ((forall i :: !ExtensionAt(s, i)) && r == s)
  {
    match FindExtension(s, |s| - 1)
    case Some(i) => s[..i]
    case None => s
  }

  /** There is at most one place where the extension can start. */
  lemma ExtensionUnique(s: string, i: int, j: int)
    requires ExtensionAt(s, i) && ExtensionAt(s, j)
    ensures i == j
  {
  }

  /** The derived product name of a chosen file. */
  function DeriveName(fileName: string): (r: string)
    ensures |r| <= |fileName|
  {
    ToUpper(StripExtension(fileName))
  }

  lemma DeriveNameExamples()
    ensures DeriveName("a.b.png") == "A.B"
    ensures DeriveName(".png") == ""
    ensures DeriveName("README") == "README"
    ensures DeriveName("dir.x/photo") == "DIR.X/PHOTO"
  {
    assert FindExtension("a.b.png", 6) == FindExtension("a.b.png", 3) == Some(3);
    assert FindExtension(".png", 3) == FindExtension(".png", 0) == Some(0);
    assert FindExtension("README", 5) == FindExtension("README", -1) == None;
    assert FindExtension("dir.x/photo", 10) == FindExtension("dir.x/photo", 5) == None;
    assert "a.b.png"[..3] == "a.b";
  }

  /** The file name the upload uses for an item: the name lower-cased, plus `.jpg`. */
  function UploadName(derivedName: string): (r: string)
    ensures |r| == |derivedName| + 4 && r[|derivedName|..] == ".jpg"
    ensures forall k :: 0 <= k < |derivedName| ==> r[k] == LowerChar(derivedName[k]) && !('A' <= r[k] <= 'Z')
  {
    ToLower(derivedName) + ".jpg"
  }

  // ---------------------------------------------------------------------------
  // What one started item does, as a function of the collaborators' answers.

  const CheckFailedMessage: string := "Validation check failed"
  const DuplicateMessage: string := "Duplicate name"
  const UploadFailedMessage: string := "ImgBB upload failed"
  const AddFailedMessage: string := "Sheet update failed"

  /** The terminal status of an item, the message written with it (`None` keeps the old one) and the requests sent. */
  datatype Attempt = Attempt(status: Status, message: Option<string>, calls: seq<ServiceCall>)

  function AttemptItem(name: string, category: string, o: ItemOutcome): (a: Attempt)
    ensures IsTerminal(a.status)
  {
    var check := [CheckName(name)];
    match o.check
    case CheckFailed => Attempt(Error, Some(CheckFailedMessage), check)
    case NameIsDuplicate => Attempt(Skipped, Some(DuplicateMessage), check)
    case NameIsUnique =>
      if !o.converted then
        // the image decoder rejects with an event, whose `message` is undefined
        Attempt(Error, Some(""), check)
      else
        var upload := check + [UploadImage(UploadName(name))];
        match o.upload
        case UploadFailed(e) => Attempt(Error, Some(OrElse(e, UploadFailedMessage)), upload)
        case Uploaded(url) =>
          var all := upload + [AddProduct(name, category, url)];
          match o.add
          case AddSucceeded => Attempt(Success, None, all)
          case AddFailed(e) => Attempt(Error, Some(OrElse(e, AddFailedMessage)), all)
  }

  /**
   * What one started item does: it always asks the name check first; a failed check
   * or a duplicate ends it there, and so does an image that cannot be converted
   * (with an empty message); the upload uses the lower-cased name plus `.jpg`;
   * registration happens only after a successful upload, with that upload's URL; and
   * the item succeeds exactly when every step succeeds.
   */
  lemma AttemptItemContract(name: string, category: string, o: ItemOutcome)
    ensures var a := AttemptItem(name, category, o);
      && |a.calls| >= 1 && a.calls[0] == CheckName(name)
      && (o.check == CheckFailed ==>
            a.status == Error && a.message == Some(CheckFailedMessage) && a.calls == [CheckName(name)])
      && (a.status == Skipped <==> o.check == NameIsDuplicate)
      && (a.status == Skipped ==> a.message == Some(DuplicateMessage) && a.calls == [CheckName(name)])
      && (a.status == Success <==>
            o.check == NameIsUnique && o.converted && o.upload.Uploaded? && o.add == AddSucceeded)
      && (a.status == Success ==> a.message == None)
      && (forall c :: c in a.calls && c.UploadImage? ==>
            c.filename == UploadName(name) && o.check == NameIsUnique && o.converted)
      && (forall c :: c in a.calls && c.AddProduct? ==>
            o.check == NameIsUnique && o.converted && o.upload.Uploaded? && c == AddProduct(name, category, o.upload.url))
      && (o.check == NameIsUnique && !o.converted ==>
            a.status == Error && a.message == Some("") && a.calls == [CheckName(name)])
      && (o.check == NameIsUnique && o.converted && o.upload.UploadFailed? ==>
            a.status == Error && a.message == Some(OrElse(o.upload.error, UploadFailedMessage)))
      && (o.check == NameIsUnique && o.converted && o.upload.Uploaded? && o.add.AddFailed? ==>
            a.status == Error && a.message == Some(OrElse(o.add.error, AddFailedMessage)))
  {
  }

  /** The item after its attempt. */
  function Settle(item: QueueItem, a: Attempt): QueueItem
  {
    item.(status := a.status, message := a.message.GetOr(item.message))
  }

  function Settled(item: QueueItem, category: string, o: ItemOutcome): QueueItem
  {
    Settle(item, AttemptItem(item.derivedName, category, o))
  }

  // ---------------------------------------------------------------------------
  // A run over the queue `items`, after its first `n` items have been processed.

  /** The queue: the first `n` items settled in turn, each one written in place. */
  function AfterRun(items: seq<QueueItem>, outcomes: seq<ItemOutcome>, category: string, n: nat): (r: seq<QueueItem>)
    requires n <= |items| == |outcomes|
    ensures |r| == |items|
  {
    if n == 0 then items
    else AfterRun(items, outcomes, category, n - 1)[n - 1 := Settled(items[n - 1], category, outcomes[n - 1])]
  }

  /** The requests sent, in order. */
  function RunCalls(items: seq<QueueItem>, outcomes: seq<ItemOutcome>, category: string, n: nat): seq<ServiceCall>
    requires n <= |items| == |outcomes|
  {
    if n == 0 then []
    else RunCalls(items, outcomes, category, n - 1) + AttemptItem(items[n - 1].derivedName, category, outcomes[n - 1]).calls
  }

  /** The status writes, in order. */
  function RunUpdates(items: seq<QueueItem>, outcomes: seq<ItemOutcome>, category: string, n: nat): seq<StatusUpdate>
    requires n <= |items| == |outcomes|
  {
    if n == 0 then []
    else
      RunUpdates(items, outcomes, category, n - 1)
        + [StatusUpdate(items[n - 1].id, Processing),
           StatusUpdate(items[n - 1].id, AttemptItem(items[n - 1].derivedName, category, outcomes[n - 1]).status)]
  }

  /** The counters of `finalResults`, bumped once per item by its terminal status. */
  function Tally(items: seq<QueueItem>, outcomes: seq<ItemOutcome>, category: string, n: nat): BatchResult
    requires n <= |items| == |outcomes|
  {
    if n == 0 then BatchResult(0, 0, 0)
    else
      var t := Tally(items, outcomes, category, n - 1);
      match AttemptItem(items[n - 1].derivedName, category, outcomes[n - 1]).status
      case Success => t.(added := t.added + 1)
      case Skipped => t.(skipped := t.skipped + 1)
      case _ => t.(errors := t.errors + 1)
  }

  /** The first `n` items are settled by their own outcome; the others are as they were. */
  lemma {:induction false} AfterRunAt(items: seq<QueueItem>, outcomes: seq<ItemOutcome>, category: string, n: nat)
    requires n <= |items| == |outcomes|
    ensures forall k :: 0 <= k < |items| ==>
      AfterRun(items, outcomes, category, n)[k] == if k < n then Settled(items[k], category, outcomes[k]) else items[k]
  {
    if n > 0 {
      AfterRunAt(items, outcomes, category, n - 1);
    }
  }

  /** A run never changes an item's id, file or derived name, so distinct ids stay distinct. */
  lemma AfterRunKeepsIds(items: seq<QueueItem>, outcomes: seq<ItemOutcome>, category: string, n: nat)
    requires n <= |items| == |outcomes|
    ensures forall k :: 0 <= k < |items| ==>
      var r := AfterRun(items, outcomes, category, n)[k];
      r.id == items[k].id && r.fileName == items[k].fileName && r.derivedName == items[k].derivedName
    ensures DistinctIds(items) ==> DistinctIds(AfterRun(items, outcomes, category, n))
  {
    AfterRunAt(items, outcomes, category, n);
  }

  /**
   * Items are processed strictly in index order, and every started item is first
   * marked processing and then receives exactly one terminal status.
   */
  lemma {:induction false} RunUpdatesInOrder(items: seq<QueueItem>, outcomes: seq<ItemOutcome>, category: string, n: nat)
    requires n <= |items| == |outcomes|
    ensures |RunUpdates(items, outcomes, category, n)| == 2 * n
    ensures forall k :: 0 <= k < n ==>
      RunUpdates(items, outcomes, category, n)[2 * k] == StatusUpdate(items[k].id, Processing) &&
      RunUpdates(items, outcomes, category, n)[2 * k + 1] == StatusUpdate(items[k].id, Settled(items[k], category, outcomes[k]).status)
    ensures forall k :: 0 <= k < n ==> IsTerminal(RunUpdates(items, outcomes, category, n)[2 * k + 1].status)
  {
    if n > 0 {
      RunUpdatesInOrder(items, outcomes, category, n - 1);
      var u := RunUpdates(items, outcomes, category, n);
      var prev := RunUpdates(items, outcomes, category, n - 1);
      assert u == prev + [u[2 * (n - 1)], u[2 * (n - 1) + 1]];
      forall k | 0 <= k < n - 1
        ensures u[2 * k] == prev[2 * k] && u[2 * k + 1] == prev[2 * k + 1]
      {
      }
    }
  }

  /** Every request of a run belongs to one of its started items. */
  lemma {:induction false} RunCallsFrom(items: seq<QueueItem>, outcomes: seq<ItemOutcome>, category: string, n: nat, c: ServiceCall)
    requires n <= |items| == |outcomes|
    requires c in RunCalls(items, outcomes, category, n)
    ensures exists j :: 0 <= j < n && c in AttemptItem(items[j].derivedName, category, outcomes[j]).calls
  {
    if c !in AttemptItem(items[n - 1].derivedName, category, outcomes[n - 1]).calls {
      RunCallsFrom(items, outcomes, category, n - 1, c);
    }
  }

  /**
   * An image upload is sent only for an item whose name check said unique and whose
   * image converted, under that item's lower-cased name; so a duplicate's own
   * requests are its name check alone.
   */
  lemma UploadsOnlyForUniqueNames(items: seq<QueueItem>, outcomes: seq<ItemOutcome>, category: string, n: nat, c: ServiceCall)
    requires n <= |items| == |outcomes|
    requires c in RunCalls(items, outcomes, category, n) && c.UploadImage?
    ensures exists j ::
      0 <= j < n && outcomes[j].check == NameIsUnique && outcomes[j].converted && c.filename == UploadName(items[j].derivedName)
  {
    RunCallsFrom(items, outcomes, category, n, c);
    var j :| 0 <= j < n && c in AttemptItem(items[j].derivedName, category, outcomes[j]).calls;
    AttemptItemContract(items[j].derivedName, category, outcomes[j]);
  }

  /** The number of items with status `st`. */
  function CountStatus(fs: seq<QueueItem>, st: Status): nat
  {
    if fs == [] then 0
    else CountStatus(fs[..|fs| - 1], st) + (if fs[|fs| - 1].status == st then 1 else 0)
  }

  /**
   * The counters are the numbers of started items that ended in success, skipped
   * and error, and together they count every started item.
   */
  lemma {:induction false} TallyCounts(items: seq<QueueItem>, outcomes: seq<ItemOutcome>, category: string, n: nat)
    requires n <= |items| == |outcomes|
    ensures var t := Tally(items, outcomes, category, n);
      var done := AfterRun(items, outcomes, category, n)[..n];
      && t.added == CountStatus(done, Success)
      && t.skipped == CountStatus(done, Skipped)
      && t.errors == CountStatus(done, Error)
      && t.added + t.skipped + t.errors == n
  {
    if n > 0 {
      TallyCounts(items, outcomes, category, n - 1);
      DoneGrows(items, outcomes, category, n);
      var done := AfterRun(items, outcomes, category, n)[..n];
      assert done[..|done| - 1] == AfterRun(items, outcomes, category, n - 1)[..n - 1];
    }
  }

  /** An item the run has not reached yet is as it was. */
  lemma {:induction false} AfterRunUntouched(items: seq<QueueItem>, outcomes: seq<ItemOutcome>, category: string, n: nat, k: nat)
    requires n <= k < |items| == |outcomes|
    ensures AfterRun(items, outcomes, category, n)[k] == items[k]
  {
    if n > 0 {
      AfterRunUntouched(items, outcomes, category, n - 1, k);
    }
  }

  /** The settled prefix grows by the item just settled. */
  lemma DoneGrows(items: seq<QueueItem>, outcomes: seq<ItemOutcome>, category: string, n: nat)
    requires 0 < n <= |items| == |outcomes|
    ensures AfterRun(items, outcomes, category, n)[..n]
      == AfterRun(items, outcomes, category, n - 1)[..n - 1] + [Settled(items[n - 1], category, outcomes[n - 1])]
  {
    var prev := AfterRun(items, outcomes, category, n - 1);
    var cur := AfterRun(items, outcomes, category, n);
    assert cur == prev[n - 1 := Settled(items[n - 1], category, outcomes[n - 1])];
    assert cur[..n - 1] == prev[..n - 1];
  }

  // ---------------------------------------------------------------------------
  // The queue.

  predicate DistinctIds(fs: seq<QueueItem>)
  {
    forall a, b :: 0 <= a < b < |fs| ==> fs[a].id != fs[b].id
  }

  predicate HasId(fs: seq<QueueItem>, id: string)
  {
    exists k :: 0 <= k < |fs| && fs[k].id == id
  }

  /** Newly chosen files, as pending queue items with an empty message. */
  function Queued(chosen: seq<ChosenFile>): (r: seq<QueueItem>)
    ensures |r| == |chosen|
  {
    seq(|chosen|, k requires 0 <= k < |chosen| =>
      QueueItem(chosen[k].id, chosen[k].name, DeriveName(chosen[k].name), Pending, ""))
  }

  /**
   * `prev.map(f => f.id === id ? { ...f, status, message } : f)`; `None` keeps the
   * message. Every item with the id gets the status, and nothing else changes.
   */
  function SetStatus(fs: seq<QueueItem>, id: string, st: Status, msg: Option<string>): (r: seq<QueueItem>)
    ensures |r| == |fs|
    ensures forall k :: 0 <= k < |fs| && fs[k].id != id ==> r[k] == fs[k]
    ensures forall k :: 0 <= k < |fs| && fs[k].id == id ==>
      r[k].status == st && r[k].message == msg.GetOr(fs[k].message)
      && r[k].id == id && r[k].fileName == fs[k].fileName && r[k].derivedName == fs[k].derivedName
  {
    seq(|fs|, k requires 0 <= k < |fs| =>
      if fs[k].id == id then fs[k].(status := st, message := msg.GetOr(fs[k].message)) else fs[k])
  }

  /** With distinct ids, writing by id writes exactly the one item that has it. */
  lemma SetStatusAt(fs: seq<QueueItem>, i: nat, st: Status, msg: Option<string>)
    requires DistinctIds(fs) && i < |fs|
    ensures SetStatus(fs, fs[i].id, st, msg) == fs[i := fs[i].(status := st, message := msg.GetOr(fs[i].message))]
  {
  }

  /** `prev.filter(f => f.id !== id)`: no item with the id is left, every other item stays, in order. */
  function Without(fs: seq<QueueItem>, id: string): (r: seq<QueueItem>)
    ensures forall k :: 0 <= k < |r| ==> r[k].id != id
    ensures forall f :: f in r <==> f in fs && f.id != id
    ensures IsSubsequence(r, fs)
  {
    FilterIsSubsequence(fs, (f: QueueItem) => f.id != id);
    var r := Filter(fs, (f: QueueItem) => f.id != id);
    assert forall k :: 0 <= k < |r| ==> r[k] in r;
    r
  }

  /** Removing an id that the queue holds at `k` deletes that item and keeps the others in order. */
  lemma {:induction false} WithoutRemovesOne(fs: seq<QueueItem>, k: nat)
    requires DistinctIds(fs) && k < |fs|
    ensures Without(fs, fs[k].id) == fs[..k] + fs[k + 1..]
  {
    var id := fs[k].id;
    if k == 0 {
      assert Without(fs, id) == Without(fs[1..], id);
      FilterAll(fs[1..], (f: QueueItem) => f.id != id);
    } else {
      WithoutRemovesOne(fs[1..], k - 1);
      assert Without(fs, id) == [fs[0]] + Without(fs[1..], id);
      assert fs[..k] == [fs[0]] + fs[1..][..k - 1];
    }
  }

  /** Removing an id the queue does not hold leaves it as it is. */
  lemma WithoutAbsent(fs: seq<QueueItem>, id: string)
    requires !HasId(fs, id)
    ensures Without(fs, id) == fs
  {
    FilterAll(fs, (f: QueueItem) => f.id != id);
  }

  /**
   * The category a batch is registered under; `""` means none can be resolved. A
   * new category is trimmed, so one made only of white space resolves to none.
   */
  function FinalCategory(isNewCategory: bool, newCategoryName: string, category: string): (r: string)
    ensures isNewCategory ==> r == Trim(newCategoryName) && (r == "" <==> AllSpace(newCategoryName))
    ensures !isNewCategory ==> r == category
  {
    BlankIffAllSpace(newCategoryName);
    if isNewCategory then Trim(newCategoryName) else category
  }

  class BulkUploadForm {
    var category: string
    var isNewCategory: bool
    var newCategoryName: string
    var files: seq<QueueItem>
    var processedCount: nat
    var results: Option<BatchResult>
    var isUploading: bool
    var categoryError: string       // "" while no error is shown
    var calls: seq<ServiceCall>     // requests sent to the collaborators
    var updates: seq<StatusUpdate>  // status writes, in order
    var refreshes: nat              // times the catalog-refresh callback fired

    ghost predicate Valid()
      reads this
    {
      DistinctIds(files)
    }

    constructor ()
      ensures Valid()
      ensures category == "" && !isNewCategory && newCategoryName == ""
      ensures files == [] && processedCount == 0 && results == None && !isUploading && categoryError == ""
      ensures calls == [] && updates == [] && refreshes == 0
    {
      category, isNewCategory, newCategoryName := "", false, "";
      files, processedCount, results, isUploading, categoryError := [], 0, None, false, "";
      calls, updates, refreshes := [], [], 0;
    }

    /** `handleFileChange`: newly chosen files join the end of the queue as pending items. */
    method AddFiles(chosen: seq<ChosenFile>)
      requires Valid()
      requires forall k :: 0 <= k < |chosen| ==> !HasId(files, chosen[k].id)
      requires forall a, b :: 0 <= a < b < |chosen| ==> chosen[a].id != chosen[b].id
      modifies this`files
      ensures Valid()
      ensures files == old(files) + Queued(chosen)
    {
      if |chosen| > 0 {
        files := files + Queued(chosen);
      }
    }

    /** `removeFile`: drops the item with that id. */
    method RemoveFile(id: string)
      requires Valid()
      modifies this`files
      ensures Valid()
      ensures files == Without(old(files), id)
      ensures !HasId(files, id)
      ensures HasId(old(files), id) ==> |files| == |old(files)| - 1
      ensures !HasId(old(files), id) ==> files == old(files)
    {
      if HasId(files, id) {
        var k :| 0 <= k < |files| && files[k].id == id;
        WithoutRemovesOne(files, k);
      } else {
        WithoutAbsent(files, id);
      }
      files := Without(files, id);
    }

    /** `handleClearQueue`. */
    method ClearQueue()
      modifies this`files, this`processedCount, this`results
      ensures Valid()
      ensures files == [] && processedCount == 0 && results == None
    {
      files, processedCount, results := [], 0, None;
    }

    /** The body of the loop for item `i`: processing, then one terminal status. */
    method ProcessItem(i: nat, category: string, o: ItemOutcome) returns (st: Status)
      requires Valid() && i < |files|
      modifies this`files, this`calls, this`updates
      ensures Valid()
      ensures st == AttemptItem(old(files[i]).derivedName, category, o).status
      ensures files == old(files)[i := Settled(old(files[i]), category, o)]
      ensures calls == old(calls) + AttemptItem(old(files[i]).derivedName, category, o).calls
      ensures updates == old(updates) + [StatusUpdate(old(files[i]).id, Processing), StatusUpdate(old(files[i]).id, st)]
    {
      var item := files[i];
      SetStatusAt(files, i, Processing, None);
      files := SetStatus(files, item.id, Processing, None);
      updates := updates + [StatusUpdate(item.id, Processing)];
      calls := calls + [CheckName(item.derivedName)];
      var message: Option<string>;
      if o.check == CheckFailed {
        st, message := Error, Some(CheckFailedMessage);
      } else if o.check == NameIsDuplicate {
        st, message := Skipped, Some(DuplicateMessage);
      } else if !o.converted {
        st, message := Error, Some("");
      } else {
        calls := calls + [UploadImage(UploadName(item.derivedName))];
        match o.upload {
          case UploadFailed(e) =>
            st, message := Error, Some(OrElse(e, UploadFailedMessage));
          case Uploaded(url) =>
            calls := calls + [AddProduct(item.derivedName, category, url)];
            match o.add {
              case AddSucceeded =>
                st, message := Success, None;
              case AddFailed(e) =>
                st, message := Error, Some(OrElse(e, AddFailedMessage));
            }
        }
      }
      SetStatusAt(files, i, st, message);
      files := SetStatus(files, item.id, st, message);
      updates := updates + [StatusUpdate(item.id, st)];
    }

    /** One pass of the loop: item `i` is processed and its terminal status counted. */
    method RunStep(snapshot: seq<QueueItem>, outcomes: seq<ItemOutcome>, cat: string, i: nat,
                   ghost calls0: seq<ServiceCall>, ghost updates0: seq<StatusUpdate>, before: BatchResult)
      returns (after: BatchResult)
      requires Valid() && i < |snapshot| == |outcomes|
      requires files == AfterRun(snapshot, outcomes, cat, i)
      requires calls == calls0 + RunCalls(snapshot, outcomes, cat, i)
      requires updates == updates0 + RunUpdates(snapshot, outcomes, cat, i)
      requires before == Tally(snapshot, outcomes, cat, i)
      modifies this`files, this`calls, this`updates
      ensures Valid()
      ensures files == AfterRun(snapshot, outcomes, cat, i + 1)
      ensures calls == calls0 + RunCalls(snapshot, outcomes, cat, i + 1)
      ensures updates == updates0 + RunUpdates(snapshot, outcomes, cat, i + 1)
      ensures after == Tally(snapshot, outcomes, cat, i + 1)
    {
      AfterRunUntouched(snapshot, outcomes, cat, i, i);
      ghost var a := AttemptItem(snapshot[i].derivedName, cat, outcomes[i]);
      ghost var callsBefore, updatesBefore := calls, updates;
      var st := ProcessItem(i, cat, outcomes[i]);
      assert calls == callsBefore + a.calls;
      assert updates == updatesBefore + [StatusUpdate(snapshot[i].id, Processing), StatusUpdate(snapshot[i].id, st)];
      after := before;
      if st == Success {
        after := after.(added := after.added + 1);
      } else if st == Skipped {
        after := after.(skipped := after.skipped + 1);
      } else {
        after := after.(errors := after.errors + 1);
      }
    }

    /**
     * The `for` loop of `handleStartUpload` over the queue as it was when the run
     * started, in index order until the stop flag is seen; returns how many items
     * started and the three counters.
     */
    method RunQueue(cat: string, outcomes: seq<ItemOutcome>, stopAt: nat) returns (n: nat, added: nat, skipped: nat, errors: nat)
      requires Valid()
      requires |outcomes| == |files|
      modifies this`files, this`calls, this`updates, this`processedCount
      ensures Valid()
      ensures n == Min(stopAt, |old(files)|)
      ensures files == AfterRun(old(files), outcomes, cat, n)
      ensures calls == old(calls) + RunCalls(old(files), outcomes, cat, n)
      ensures updates == old(updates) + RunUpdates(old(files), outcomes, cat, n)
      ensures processedCount == n
      ensures BatchResult(added, skipped, errors) == Tally(old(files), outcomes, cat, n)
    {
      processedCount := 0;
      var snapshot := files;
      var tally := BatchResult(0, 0, 0);
      var i := 0;
      while i < |snapshot|
        invariant i <= |snapshot| && i <= stopAt
        invariant Valid()
        invariant files == AfterRun(snapshot, outcomes, cat, i)
        invariant calls == old(calls) + RunCalls(snapshot, outcomes, cat, i)
        invariant updates == old(updates) + RunUpdates(snapshot, outcomes, cat, i)
        invariant processedCount == i
        invariant tally == Tally(snapshot, outcomes, cat, i)
      {
        if i >= stopAt {
          break;  // the stop flag is read only here, before an item starts
        }
        processedCount := i + 1;
        tally := RunStep(snapshot, outcomes, cat, i, old(calls), old(updates), tally);
        i := i + 1;
      }
      n := i;
      added, skipped, errors := tally.added, tally.skipped, tally.errors;
    }

    /** `handleStartUpload`: category check, the run, then the batch result and the refresh callback. */
    method StartUpload(outcomes: seq<ItemOutcome>, stopAt: nat)
      requires Valid()
      requires |outcomes| == |files|
      modifies this
      ensures Valid()
      ensures category == old(category) && isNewCategory == old(isNewCategory) && newCategoryName == old(newCategoryName)
      ensures FinalCategory(old(isNewCategory), old(newCategoryName), old(category)) == "" ==>
        && categoryError == CategoryMissing
        && files == old(files) && processedCount == old(processedCount) && results == old(results)
        && isUploading == old(isUploading) && calls == old(calls) && updates == old(updates)
        && refreshes == old(refreshes)
      ensures FinalCategory(old(isNewCategory), old(newCategoryName), old(category)) != "" ==>
        var cat := FinalCategory(old(isNewCategory), old(newCategoryName), old(category));
        var n := Min(stopAt, |old(files)|);
        && categoryError == "" && !isUploading
        && files == AfterRun(old(files), outcomes, cat, n)
        && calls == old(calls) + RunCalls(old(files), outcomes, cat, n)
        && updates == old(updates) + RunUpdates(old(files), outcomes, cat, n)
        && processedCount == n
        && results == Some(Tally(old(files), outcomes, cat, n))
        && refreshes == old(refreshes) + (if results.value.added > 0 then 1 else 0)
    {
      var cat := FinalCategory(isNewCategory, newCategoryName, category);
      if cat == "" {
        categoryError := CategoryMissing;
        return;
      }
      categoryError := "";
      isUploading := true;
      var n, added, skipped, errors := RunQueue(cat, outcomes, stopAt);
      isUploading := false;
      results := Some(BatchResult(added, skipped, errors));
      if added > 0 {
        refreshes := refreshes + 1;
      }
    }
  }
}
