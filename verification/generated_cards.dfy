/**
 * The generated-cards view: each card is saved as `<sanitised name>.png`, "download
 * all" staggers the downloads 200 ms apart, and a share that fails or is not
 * supported falls back to downloading.
 */
module GeneratedCards {
  import opened Strings
  import opened Products

  /** The pause between two staggered downloads, in milliseconds. */
  const StaggerMs: nat := 200

  /** `[a-z0-9]` under the `i` flag: an ASCII letter or digit. */
  predicate IsAsciiAlnum(c: char)
  {
    ('a' <= c <= 'z') || ('A' <= c <= 'Z') || ('0' <= c <= '9')
  }

  /** A character a sanitised name may hold: `[a-z0-9_]`. */
  predicate IsFileNameChar(c: char)
  {
    ('a' <= c <= 'z') || ('0' <= c <= '9') || c == '_'
  }

  /** `name.replace(/[^a-z0-9]/gi, '_').toLowerCase()`: each other character becomes `_`, none is dropped. */
  function Sanitize(name: string): (r: string)
    ensures |r| == |name|
    ensures forall k :: 0 <= k < |r| ==> IsFileNameChar(r[k])
    ensures forall k :: 0 <= k < |r| ==> (r[k] == '_' <==> !IsAsciiAlnum(name[k]))
    ensures forall k :: 0 <= k < |r| && IsAsciiAlnum(name[k]) ==> r[k] == LowerChar(name[k])
  {
    var replaced := seq(|name|, k requires 0 <= k < |name| => if IsAsciiAlnum(name[k]) then name[k] else '_');
    ToLower(replaced)
  }

  /** A sanitised name is its own sanitised form. */
  lemma SanitizeIdempotent(name: string)
    ensures Sanitize(Sanitize(name)) == Sanitize(name)
  {
    var once := Sanitize(name);
    var twice := Sanitize(once);
    forall k | 0 <= k < |once|
      ensures twice[k] == once[k]
    {
      if IsAsciiAlnum(once[k]) {
        assert twice[k] == LowerChar(once[k]);
      }
    }
  }

  /** The file a card is saved under. */
  function CardFileName(p: Product): (r: string)
    ensures |r| == |p.product_name| + 4
    ensures r[|r| - 4..] == ".png"
    ensures forall k :: 0 <= k < |r| - 4 ==> IsFileNameChar(r[k])
  {
    Sanitize(p.product_name) + ".png"
  }

  /** Two products whose names differ only in characters outside `[A-Za-z0-9]`, or in letter case, are saved under the same name. */
  lemma FileNameCollision(p: Product, q: Product)
    requires |p.product_name| == |q.product_name|
    requires forall k :: 0 <= k < |p.product_name| ==>
      (IsAsciiAlnum(p.product_name[k]) <==> IsAsciiAlnum(q.product_name[k])) &&
      (IsAsciiAlnum(p.product_name[k]) ==> LowerChar(p.product_name[k]) == LowerChar(q.product_name[k]))
    ensures CardFileName(p) == CardFileName(q)
  {
    var a := Sanitize(p.product_name);
    var b := Sanitize(q.product_name);
    forall k | 0 <= k < |a|
      ensures a[k] == b[k]
    {
    }
  }

  /** The title of a share sheet: a product's name, or `${n} Product Cards`. */
  datatype ShareTitle = NameTitle(name: string) | CountTitle(count: nat)

  /** What the view has the browser do. */
  datatype Action =
    | Download(delayMs: nat, filename: string)
    | Share(filenames: seq<string>, title: ShareTitle)

  /** `handleDownload`: the card saved at once, under its sanitised `.png` file name. */
  function DownloadOne(p: Product): (r: Action)
    ensures r.Download? && r.delayMs == 0 && r.filename == CardFileName(p)
  {
    Download(0, CardFileName(p))
  }

  /**
   * `handleShare`: `shareToWhatsApp` shares the card as `<product name>.png`, the
   * name as it is; when it reports failure (no share support, or the share threw)
   * the card is downloaded instead.
   */
  function ShareOne(p: Product, shared: bool): (r: seq<Action>)
    ensures |r| == 1
    ensures shared ==> r[0].Share? && r[0].filenames == [p.product_name + ".png"] && r[0].title == NameTitle(p.product_name)
    ensures !shared ==> r[0] == Download(0, CardFileName(p))
  {
    if shared then [Share([p.product_name + ".png"], NameTitle(p.product_name))] else [DownloadOne(p)]
  }

  /** The one share path that keeps the raw name: its file name differs from the downloaded one whenever the name holds a character outside `[a-z0-9]`. */
  lemma SharedNameDiffers(p: Product, k: nat)
    requires k < |p.product_name| && !IsFileNameChar(p.product_name[k])
    ensures ShareOne(p, true)[0].filenames[0] != CardFileName(p)
  {
    var raw := p.product_name + ".png";
    assert raw[k] == p.product_name[k];
    assert IsFileNameChar(CardFileName(p)[k]);
  }

  /** `handleDownloadAll`: card `i` downloaded after `i * 200` ms. */
  function DownloadAll(cards: seq<Product>): (r: seq<Action>)
    ensures |r| == |cards|
    ensures forall i :: 0 <= i < |r| ==> r[i] == Download(i * StaggerMs, CardFileName(cards[i]))
  {
    seq(|cards|, i requires 0 <= i < |cards| => Download(i * StaggerMs, CardFileName(cards[i])))
  }

  /** The downloads start at once and each later card waits strictly longer than every earlier one. */
  lemma DownloadAllStaggered(cards: seq<Product>)
    ensures var r := DownloadAll(cards);
      && (|r| > 0 ==> r[0].delayMs == 0)
      && forall i, j :: 0 <= i < j < |r| ==> r[i].delayMs + StaggerMs <= r[j].delayMs
  {
    var r := DownloadAll(cards);
    forall i, j | 0 <= i < j < |r|
      ensures r[i].delayMs + StaggerMs <= r[j].delayMs
    {
      assert r[i].delayMs == i * StaggerMs && r[j].delayMs == j * StaggerMs;
      assert (j - i) * StaggerMs >= StaggerMs;
    }
  }

  /** How far the share-all attempt got. */
  datatype ShareSupport =
    | NoShareApi             // `navigator.share` or `navigator.canShare` is missing
    | CannotShareFiles       // `canShare({ files })` answered false
    | ShareThrew             // building the files or sharing them threw
    | Shared                 // the share sheet took the files

  /** `handleShareAll`: all cards shared as one list of files, else every card downloaded. */
  function ShareAll(cards: seq<Product>, support: ShareSupport): (r: seq<Action>)
    ensures support == Shared ==> |r| == 1 && r[0].Share? && r[0].title == CountTitle(|cards|)
    ensures support == Shared ==> |r[0].filenames| == |cards|
    ensures support != Shared ==> r == DownloadAll(cards)
  {
    if support == Shared then [Share(seq(|cards|, i requires 0 <= i < |cards| => CardFileName(cards[i])), CountTitle(|cards|))]
    else DownloadAll(cards)
  }

  /** Download, download-all and share-all save or share card `i` under the same file name. */
  lemma SameFileNameEverywhere(cards: seq<Product>, support: ShareSupport, i: nat)
    requires i < |cards|
    ensures DownloadOne(cards[i]).filename == CardFileName(cards[i])
    ensures DownloadAll(cards)[i].filename == CardFileName(cards[i])
    ensures support == Shared ==> ShareAll(cards, support)[0].filenames[i] == CardFileName(cards[i])
    ensures support != Shared ==> ShareAll(cards, support)[i].filename == CardFileName(cards[i])
  {
  }
}
