/**
 * The single-product form: the name field is upper-cased and cut to 35
 * characters, a name that is neither blank nor digits-only is checked for
 * uniqueness, and only a name found unique can be submitted. Submitting uploads
 * the chosen image (if any) under the lower-cased name, then adds the product.
 */
module AddProductForm {
  import opened Wrappers
  import opened Strings
  import opened Seqs
  import opened Services

  const MaxNameLength: nat := 35

  /** `value.toUpperCase().slice(0, 35)`. */
  function NormalizeName(input: string): (r: string)
    ensures |r| == Min(|input|, MaxNameLength) && |r| <= MaxNameLength
    ensures forall k :: 0 <= k < |r| ==> r[k] == UpperChar(input[k])
    ensures |input| <= MaxNameLength ==> r == ToUpper(input)
  {
    Take(ToUpper(input), MaxNameLength)
  }

  /** Normalising an already normalised name changes nothing. */
  lemma NormalizeNameIdempotent(input: string)
    ensures NormalizeName(NormalizeName(input)) == NormalizeName(input)
  {
    var once := NormalizeName(input);
    var twice := NormalizeName(once);
    forall k | 0 <= k < |twice|
      ensures twice[k] == once[k]
    {
      assert twice[k] == UpperChar(once[k]);
      assert once[k] == UpperChar(input[k]);
    }
  }

  /** The name field's status (`nameStatus`). */
  datatype NameStatus = Idle | Invalid | Checking | Unique | Duplicate | CheckError

  /** What one keystroke leaves behind: the stored name, its status and the uniqueness check it schedules. */
  datatype NameEdit = NameEdit(name: string, status: NameStatus, scheduled: Option<string>)

  /** `handleNameChange`. */
  function NameChange(input: string): (r: NameEdit)
    ensures r.name == NormalizeName(input)
    ensures r.status == Idle <==> AllSpace(r.name)
    ensures r.status == Invalid <==> IsDigits(Trim(r.name))
    ensures r.status == Idle || r.status == Invalid || r.status == Checking
    ensures r.scheduled.Some? <==> r.status == Checking
    ensures r.scheduled.Some? ==> r.scheduled.value == Trim(r.name) && r.scheduled.value != "" && !IsDigits(r.scheduled.value)
  {
    var name := NormalizeName(input);
    var t := Trim(name);
    BlankIffAllSpace(name);
    if t == "" then NameEdit(name, Idle, None)
    else if IsDigits(t) then NameEdit(name, Invalid, None)
    else NameEdit(name, Checking, Some(t))
  }

  /** The status a uniqueness answer sets. */
  function CheckedStatus(res: NameCheck): NameStatus
  {
    match res
    case NameIsUnique => Unique
    case NameIsDuplicate => Duplicate
    case CheckFailed => CheckError
  }

  /** `${name.trim().toLowerCase()}.jpg`. */
  function ImageFileName(name: string): (r: string)
    ensures |r| == |Trim(name)| + 4 && r[|r| - 4..] == ".jpg"
    ensures forall k :: 0 <= k < |r| ==> !('A' <= r[k] <= 'Z')
  {
    var t := Trim(name);
    var lower := ToLower(t);
    assert forall k :: 0 <= k < |lower| ==> !('A' <= lower[k] <= 'Z');
    lower + ".jpg"
  }

  /** The image URL the product is added with: the uploaded one, or `""` when no image was chosen. */
  function ImageUrl(hasImage: bool, upload: UploadResult): string
    requires hasImage ==> upload.Uploaded?
  {
    if hasImage then upload.url else ""
  }

  /**
   * The status describes the stored name: idle exactly when it is blank, invalid
   * only for a digits-only name, and every other status only for a name that is
   * neither; a check is pending exactly while the status is `checking`, and it
   * carries the trimmed name.
   */
  predicate NameFits(name: string, status: NameStatus, scheduled: Option<string>)
  {
    && |name| <= MaxNameLength
    && (status == Idle <==> Trim(name) == "")
    && (status == Invalid ==> IsDigits(Trim(name)))
    && (status != Idle && status != Invalid ==> !IsDigits(Trim(name)))
    && (status == Checking <==> scheduled.Some?)
    && (scheduled.Some? ==> scheduled.value == Trim(name))
  }

  /** Every keystroke leaves the name and its status in agreement. */
  lemma NameChangeFits(input: string)
    ensures var e := NameChange(input); NameFits(e.name, e.status, e.scheduled)
  {
    BlankIffAllSpace(NameChange(input).name);
  }

  /** The emptied form's name fits its idle status. */
  lemma EmptyNameFits()
    ensures NameFits("", Idle, None)
  {
    BlankIffAllSpace("");
  }

  /** Everything the form holds, as one value. */
  datatype FormState = FormState(
    name: string,
    category: string,
    isNewCategory: bool,
    newCategoryName: string,
    hasImage: bool,
    nameStatus: NameStatus,
    scheduled: Option<string>,
    loading: bool,
    error: Option<string>,
    success: bool,
    calls: seq<ServiceCall>,
    addedCount: nat)
  {
    predicate Fits()
    {
      NameFits(name, nameStatus, scheduled)
    }
  }

  /** The form as first shown. */
  const Initial := FormState("", "", false, "", false, Idle, None, false, None, false, [], 0)

  /**
   * The category a submit uses: the new-category text as typed, untrimmed, in
   * new-category mode, else the selection.
   */
  function FinalCategory(s: FormState): (r: string)
    ensures s.isNewCategory ==> r == s.newCategoryName
    ensures !s.isNewCategory ==> r == s.category
  {
    if s.isNewCategory then s.newCategoryName else s.category
  }

  /** The form after the debounce timer fires and the pending check gets `res`. */
  function CheckAnswered(s: FormState, res: NameCheck): FormState
  {
    if s.scheduled.None? then s
    else s.(calls := s.calls + [CheckName(s.scheduled.value)], nameStatus := CheckedStatus(res), scheduled := None)
  }

  /** A submit's first step: the busy mark, the error cleared, and the image upload when an image was chosen. */
  function AfterUpload(s: FormState, upload: UploadResult): FormState
  {
    var uploads := if s.hasImage then [UploadImage(ImageFileName(s.name))] else [];
    if s.hasImage && upload.UploadFailed? then
      s.(calls := s.calls + uploads, error := Some(upload.error), loading := false)
    else
      s.(calls := s.calls + uploads, error := None, loading := true)
  }

  /** A submit goes on to the add unless a chosen image failed to upload. */
  predicate UploadOk(s: FormState, upload: UploadResult)
  {
    !(s.hasImage && upload.UploadFailed?)
  }

  /** A submit's second step: the add of `productName`, then the reset or the error. */
  function AfterAdd(s: FormState, productName: string, imageUrl: string, add: AddResult): FormState
  {
    var calls := s.calls + [AddProduct(productName, FinalCategory(s), imageUrl)];
    if add.AddSucceeded? then
      FormState("", "", false, "", false, Idle, None, false, s.error, true, calls, s.addedCount + 1)
    else
      s.(calls := calls, error := Some(add.error), loading := false)
  }

  /** The form after one submit, given what the image host and the catalog answer. */
  function Submitted(s: FormState, upload: UploadResult, add: AddResult): FormState
  {
    if s.nameStatus != Unique then s
    else if !UploadOk(s, upload) then AfterUpload(s, upload)
    else AfterAdd(AfterUpload(s, upload), Trim(s.name), ImageUrl(s.hasImage, upload), add)
  }

  /** The initial form is consistent, and every step keeps the name and its status in agreement. */
  lemma StepsKeepFit(s: FormState, input: string, res: NameCheck, upload: UploadResult, add: AddResult)
    requires s.Fits()
    ensures Initial.Fits()
    ensures CheckAnswered(s, res).Fits()
    ensures Submitted(s, upload, add).Fits()
  {
    EmptyNameFits();
  }

  /**
   * Submitting does nothing unless the name was found unique. A unique name sends
   * the image upload first when an image was chosen, under the lower-cased trimmed
   * name with `.jpg`; a failed upload stops there with its error. Otherwise the
   * product is added under the trimmed name and the chosen category, with the
   * uploaded URL or `""`.
   */
  lemma SubmitRequests(s: FormState, upload: UploadResult, add: AddResult)
    ensures var r := Submitted(s, upload, add);
      && (s.nameStatus != Unique ==> r == s)
      && (s.nameStatus == Unique ==>
        && |r.calls| >= |s.calls| + 1 && r.calls[..|s.calls|] == s.calls
        && (s.hasImage <==> r.calls[|s.calls|] == UploadImage(ImageFileName(s.name)))
        && (UploadOk(s, upload) ==>
            r.calls[|r.calls| - 1] == AddProduct(Trim(s.name), FinalCategory(s), ImageUrl(s.hasImage, upload)))
        && (!UploadOk(s, upload) ==> |r.calls| == |s.calls| + 1)
        && |r.calls| <= |s.calls| + 2)
  {
  }

  /**
   * A product is added, and `onProductAdded` called, exactly when the name was unique,
   * no chosen image failed to upload and the catalog accepted it; then the form is
   * emptied with a success mark. Any failure keeps the inputs and records the error.
   */
  lemma SubmitOutcome(s: FormState, upload: UploadResult, add: AddResult)
    requires s.nameStatus == Unique
    ensures var r := Submitted(s, upload, add);
      var added := !(s.hasImage && upload.UploadFailed?) && add.AddSucceeded?;
      && (r.addedCount == s.addedCount + 1 <==> added)
      && (!added ==> r.addedCount == s.addedCount)
      && !r.loading
      && (added ==> r.success && r.error == None && r.name == "" && r.nameStatus == Idle && r.category == "" && !r.hasImage)
      && (s.hasImage && upload.UploadFailed? ==> r.error == Some(upload.error))
      && (!(s.hasImage && upload.UploadFailed?) && add.AddFailed? ==> r.error == Some(add.error))
      && (!added ==> r.name == s.name && r.nameStatus == s.nameStatus && r.category == s.category && r.hasImage == s.hasImage)
  {
  }

  /** In a consistent form the catalog is only ever asked to add a non-blank, not digits-only name of at most 35 characters. */
  lemma SubmitSendsCheckedName(s: FormState, upload: UploadResult, add: AddResult)
    requires s.Fits()
    ensures var r := Submitted(s, upload, add);
      forall k :: |s.calls| <= k < |r.calls| && r.calls[k].AddProduct? ==>
        r.calls[k].name != "" && !IsDigits(r.calls[k].name) && |r.calls[k].name| <= MaxNameLength
  {
    var r := Submitted(s, upload, add);
    if s.nameStatus == Unique {
      forall k | |s.calls| <= k < |r.calls| && r.calls[k].AddProduct?
        ensures r.calls[k].name == Trim(s.name)
      {
      }
    }
  }

  class Form {
    var name: string
    var category: string
    var isNewCategory: bool
    var newCategoryName: string
    var hasImage: bool
    var nameStatus: NameStatus
    /** The uniqueness check waiting on the debounce timer, with the name it will send. */
    var scheduled: Option<string>
    var loading: bool
    var error: Option<string>
    var success: bool
    /** The requests sent so far, in order. */
    var calls: seq<ServiceCall>
    /** How many times `onProductAdded` was called. */
    var addedCount: nat

    function State(): FormState
      reads this
    {
      FormState(name, category, isNewCategory, newCategoryName, hasImage, nameStatus, scheduled,
        loading, error, success, calls, addedCount)
    }

    predicate Valid()
      reads this
    {
      State().Fits()
    }

    constructor()
      ensures State() == Initial && Valid()
    {
      name := "";
      category := "";
      isNewCategory := false;
      newCategoryName := "";
      hasImage := false;
      nameStatus := Idle;
      scheduled := None;
      loading := false;
      error := None;
      success := false;
      calls := [];
      addedCount := 0;
      EmptyNameFits();
    }

    /** A keystroke in the name field; any pending check is cancelled and replaced. */
    method HandleNameChange(input: string)
      requires Valid()
      modifies this
      ensures Valid()
      ensures var e := NameChange(input);
        State() == old(State()).(name := e.name, nameStatus := e.status, scheduled := e.scheduled)
    {
      var edit := NameChange(input);
      NameChangeFits(input);
      name := edit.name;
      nameStatus := edit.status;
      scheduled := edit.scheduled;
    }

    /** The debounce timer fires: the pending check is sent and its answer sets the status. */
    method NameCheckFires(res: NameCheck)
      requires Valid()
      modifies this
      ensures Valid()
      ensures State() == CheckAnswered(old(State()), res)
    {
      if scheduled.Some? {
        calls := calls + [CheckName(scheduled.value)];
        nameStatus := CheckedStatus(res);
        scheduled := None;
      }
    }

    /** The busy mark, then the upload of the chosen image; `ok` says whether the submit goes on. */
    method UploadStep(upload: UploadResult) returns (ok: bool, imageUrl: string)
      modifies this
      ensures State() == AfterUpload(old(State()), upload)
      ensures ok == UploadOk(old(State()), upload)
      ensures ok ==> imageUrl == ImageUrl(old(hasImage), upload)
    {
      loading := true;
      error := None;
      imageUrl := "";
      ok := true;
      if hasImage {
        calls := calls + [UploadImage(ImageFileName(name))];
        if upload.UploadFailed? {
          error := Some(upload.error);
          loading := false;
          ok := false;
          return;
        }
        imageUrl := upload.url;
      }
    }

    /** The add of the product under `productName`, then the reset on success or the error on failure. */
    method AddStep(productName: string, imageUrl: string, add: AddResult)
      modifies this
      ensures State() == AfterAdd(old(State()), productName, imageUrl, add)
    {
      var payload := AddProduct(productName, if isNewCategory then newCategoryName else category, imageUrl);
      calls := calls + [payload];
      if add.AddSucceeded? {
        Reset();
        success := true;
        addedCount := addedCount + 1;
      } else {
        error := Some(add.error);
      }
      loading := false;
    }

    /** The field resets after a product was added: every input emptied, the status idle. */
    method Reset()
      modifies this
      ensures State() == FormState("", "", false, "", false, Idle, None, old(loading), old(error), old(success), old(calls), old(addedCount))
    {
      name := "";
      category := "";
      hasImage := false;
      isNewCategory := false;
      newCategoryName := "";
      nameStatus := Idle;
      scheduled := None;
    }

    /**
     * `handleSubmit`: refused unless the name was found unique; otherwise the image
     * upload (when an image was chosen), then the add, then the reset or the error.
     */
    method Submit(upload: UploadResult, add: AddResult)
      requires Valid()
      modifies this
      ensures Valid()
      ensures State() == Submitted(old(State()), upload, add)
    {
      StepsKeepFit(State(), "", CheckFailed, upload, add);
      if nameStatus != Unique {
        return;
      }
      var ok, imageUrl := UploadStep(upload);
      if ok {
        AddStep(Trim(name), imageUrl, add);
      }
    }
  }
}
