/**
 * `formatImageUrl`: a Google Drive share link is turned into a link the browser
 * can embed. A `/file/d/<ID>` link becomes the thumbnail endpoint for that ID; an
 * `open?id=` link becomes a `uc?export=view&` link; anything else is kept.
 */
module ImageUrl {
  import opened Wrappers
  import opened Strings

  const DriveHost := "drive.google.com"
  const FilePath := "/file/d/"
  const IdMarker := "/d/"
  const IdParam := "id="
  const OpenPath := "open?"
  const ViewPath := "uc?export=view&"
  const ThumbnailPrefix := "https://drive.google.com/thumbnail?id="
  const ThumbnailSuffix := "&sz=w1000"

  /** The characters of `[a-zA-Z0-9_-]`. */
  predicate IsIdChar(c: char)
  {
    ('a' <= c <= 'z') || ('A' <= c <= 'Z') || ('0' <= c <= '9') || c == '_' || c == '-'
  }

  /** A Drive file ID as the pattern captures it: one or more ID characters. */
  predicate IsDriveId(id: string)
  {
    |id| > 0 && forall k :: 0 <= k < |id| ==> IsIdChar(id[k])
  }

  /** Where the pattern `\/d\/[a-zA-Z0-9_-]` can start: `/d/` followed by an ID character. */
  predicate IdMatchAt(url: string, i: int)
  {
    OccursAt(url, IdMarker, i) && i + 3 < |url| && IsIdChar(url[i + 3])
  }

  /** The leftmost start of a match at or after `from`, as the regular expression engine finds it. */
  function FirstIdMatch(url: string, from: nat): (r: Option<nat>)
    ensures r.None? ==> forall i :: from <= i ==> !IdMatchAt(url, i)
    ensures r.Some? ==> from <= r.value && IdMatchAt(url, r.value) && forall i :: from <= i < r.value ==> !IdMatchAt(url, i)
    decreases |url| - from
  {
    if from + 3 >= |url| then None
    else if IdMatchAt(url, from) then Some(from)
    else FirstIdMatch(url, from + 1)
  }

  /** The greedy `[a-zA-Z0-9_-]+` run starting at `j`: the longest run of ID characters there. */
  function IdRun(s: string, j: nat): (r: string)
    requires j <= |s|
    ensures j + |r| <= |s| && r == s[j..j + |r|]
    ensures forall k :: 0 <= k < |r| ==> IsIdChar(r[k])
    ensures j + |r| == |s| || !IsIdChar(s[j + |r|])
    decreases |s| - j
  {
    if j < |s| && IsIdChar(s[j]) then [s[j]] + IdRun(s, j + 1) else []
  }

  function ThumbnailUrl(id: string): string
  {
    ThumbnailPrefix + id + ThumbnailSuffix
  }

  /** `formatImageUrl(url)`; `None` is `null`. */
  function FormatImageUrl(url: string): (r: Option<string>)
    ensures r.None? <==> url == ""
    ensures url != "" && !Includes(url, DriveHost) ==> r == Some(url)
    ensures r.Some? && r.value != url ==> Includes(url, DriveHost)
    ensures Includes(url, DriveHost) && Includes(url, FilePath) && FirstIdMatch(url, 0).Some? ==>
      exists id :: IsDriveId(id) && r == Some(ThumbnailUrl(id))
  {
    if url == "" then None
    else if Includes(url, DriveHost) && Includes(url, FilePath) && FirstIdMatch(url, 0).Some? then
      var i := FirstIdMatch(url, 0).value;
      var id := IdRun(url, i + 3);
      assert id[0] == url[i + 3];
      Some(ThumbnailUrl(id))
    else if Includes(url, DriveHost) && Includes(url, IdParam) then
      Some(ReplaceFirst(url, OpenPath, ViewPath))
    else Some(url)
  }

  /**
   * The thumbnail link carries the ID of the leftmost `/d/` that is followed by an
   * ID character, and all of that ID: the run stops at the end or at a character
   * outside `[a-zA-Z0-9_-]`.
   */
  lemma ThumbnailCarriesFirstId(url: string)
    requires Includes(url, DriveHost) && Includes(url, FilePath)
    requires FirstIdMatch(url, 0).Some?
    ensures var i := FirstIdMatch(url, 0).value;
      && IdMatchAt(url, i) && (forall j :: 0 <= j < i ==> !IdMatchAt(url, j))
      && FormatImageUrl(url) == Some(ThumbnailUrl(IdRun(url, i + 3)))
  {
  }

  /**
   * Any other Drive link with `id=` has its leftmost `open?` replaced by
   * `uc?export=view&`, and is kept as it is when it has none.
   */
  lemma OpenLinkRewritten(url: string)
    requires Includes(url, DriveHost) && Includes(url, IdParam)
    requires !(Includes(url, FilePath) && FirstIdMatch(url, 0).Some?)
    ensures !Includes(url, OpenPath) ==> FormatImageUrl(url) == Some(url)
    ensures Includes(url, OpenPath) ==> exists i ::
      && OccursAt(url, OpenPath, i) && (forall j :: 0 <= j < i ==> !OccursAt(url, OpenPath, j))
      && FormatImageUrl(url) == Some(url[..i] + ViewPath + url[i + |OpenPath|..])
  {
    assert FormatImageUrl(url) == Some(ReplaceFirst(url, OpenPath, ViewPath));
    ReplaceFirstLeftmost(url, OpenPath, ViewPath);
  }

  /** An occurrence of `q` at `i` fixes the characters of `s` from `i` on. */
  lemma OccursAtChar(s: string, q: string, i: int, j: nat)
    requires OccursAt(s, q, i) && j < |q|
    ensures s[i + j] == q[j]
  {
    assert s[i..i + |q|][j] == s[i + j];
  }

  /** After the fixed prefix, the thumbnail link holds only ID characters and `&sz=w1000`: no `/` and no `?`. */
  lemma ThumbnailTail(id: string)
    requires IsDriveId(id)
    ensures var t := ThumbnailUrl(id);
      |ThumbnailPrefix| == 38 && forall k :: 38 <= k < |t| ==> t[k] != '/' && t[k] != '?'
  {
    var t := ThumbnailUrl(id);
    var n := |ThumbnailPrefix|;
    forall k | n <= k < |t|
      ensures t[k] != '/' && t[k] != '?'
    {
      if k < n + |id| {
        assert t[k] == id[k - n];
      } else {
        assert t[k] == ThumbnailSuffix[k - n - |id|];
      }
    }
  }

  /** The thumbnail link contains no `/file/d/`: its only slashes are at 6, 7 and 24. */
  lemma ThumbnailHasNoFilePath(id: string)
    requires IsDriveId(id)
    ensures !Includes(ThumbnailUrl(id), FilePath)
  {
    var t := ThumbnailUrl(id);
    var n := |ThumbnailPrefix|;
    ThumbnailTail(id);
    forall k | 0 <= k < n && t[k] == '/'
      ensures k == 6 || k == 7 || k == 24
    {
      assert t[k] == ThumbnailPrefix[k];
    }
    forall i | 0 <= i <= |t|
      ensures !OccursAt(t, FilePath, i)
    {
      if OccursAt(t, FilePath, i) {
        OccursAtChar(t, FilePath, i, 0);
        OccursAtChar(t, FilePath, i, 5);
      }
    }
  }

  /** The thumbnail link contains no `open?`: its only `?` is at 34, after `thumbnail`. */
  lemma ThumbnailHasNoOpenPath(id: string)
    requires IsDriveId(id)
    ensures !Includes(ThumbnailUrl(id), OpenPath)
  {
    var t := ThumbnailUrl(id);
    var n := |ThumbnailPrefix|;
    ThumbnailTail(id);
    forall k | 0 <= k < n && t[k] == '?'
      ensures k == 34
    {
      assert t[k] == ThumbnailPrefix[k];
    }
    assert t[33] == 'l';
    forall i | 0 <= i <= |t|
      ensures !OccursAt(t, OpenPath, i)
    {
      if OccursAt(t, OpenPath, i) {
        OccursAtChar(t, OpenPath, i, 4);
        OccursAtChar(t, OpenPath, i, 3);
      }
    }
  }

  /** Formatting a thumbnail link again leaves it as it is. */
  lemma ThumbnailIsFixed(id: string)
    requires IsDriveId(id)
    ensures FormatImageUrl(ThumbnailUrl(id)) == Some(ThumbnailUrl(id))
  {
    ThumbnailHasNoFilePath(id);
    ThumbnailHasNoOpenPath(id);
  }

  /** Formatting is idempotent on every thumbnail result and on every link it keeps because it is not a Drive link. */
  lemma FormatIdempotentOnItsOutputs(url: string)
    requires url != ""
    requires !Includes(url, DriveHost) || (Includes(url, FilePath) && FirstIdMatch(url, 0).Some?)
    ensures var r := FormatImageUrl(url); r.Some? && FormatImageUrl(r.value) == r
  {
    if Includes(url, DriveHost) {
      var i := FirstIdMatch(url, 0).value;
      var id := IdRun(url, i + 3);
      assert id[0] == url[i + 3];
      ThumbnailIsFixed(id);
    }
  }
}
