/**
 * Names of the exported crops (App.tsx): the entries of the archive built
 * by `zipImagesAndDownload`, and the file name of a single download.
 */
module Export {
  import opened Wrappers

  const FolderName: string := "cropped-images"
  const ArchiveName: string := "cropped-images.zip"
  const EntryPrefix: string := "cropped-image-"
  const EntryExtension: string := ".jpg"

  predicate IsDigit(c: char)
  {
    '0' <= c <= '9'
  }

  predicate IsDecimal(s: string)
  {
    |s| > 0 && forall i :: 0 <= i < |s| ==> IsDigit(s[i])
  }

  function DigitValue(c: char): (d: nat)
    requires IsDigit(c)
    ensures d < 10
  {
    c as int - '0' as int
  }

  function DigitChar(d: nat): (c: char)
    requires d < 10
    ensures IsDigit(c) && DigitValue(c) == d
  {
    ('0' as int + d) as char
  }

  /** How a template literal prints a natural number: decimal, no leading zeros. */
  function Decimal(n: nat): (s: string)
    ensures IsDecimal(s)
    ensures n > 0 ==> s[0] != '0'
    ensures |s| == 1 <==> n < 10
    decreases n
  {
    if n < 10 then [DigitChar(n)] else Decimal(n / 10) + [DigitChar(n % 10)]
  }

  /** Reads a string of digits back as a number. */
  function ParseDecimal(s: string): nat
    requires forall i :: 0 <= i < |s| ==> IsDigit(s[i])
    decreases |s|
  {
    if s == [] then 0
    else 10 * ParseDecimal(s[..|s| - 1]) + DigitValue(s[|s| - 1])
  }

  lemma {:induction false} ParseDecimalInverts(n: nat)
    ensures ParseDecimal(Decimal(n)) == n
    decreases n
  {
    var s := Decimal(n);
    if n >= 10 {
      ParseDecimalInverts(n / 10);
      assert s[..|s| - 1] == Decimal(n / 10);
    } else {
      assert s[..|s| - 1] == [];
    }
  }

  /** Different numbers print differently. */
  lemma DecimalInjective(a: nat, b: nat)
    ensures Decimal(a) == Decimal(b) ==> a == b
  {
    ParseDecimalInverts(a);
    ParseDecimalInverts(b);
  }

  /**
   * The archive entry for the i-th crop (1-based): the prefix, the number,
   * the extension; the number can be read back from the middle.
   */
  function EntryName(i: nat): (s: string)
    ensures |s| > |EntryPrefix| + |EntryExtension|
    ensures s[..|EntryPrefix|] == EntryPrefix && s[|s| - |EntryExtension|..] == EntryExtension
    ensures IsDecimal(s[|EntryPrefix|..|s| - |EntryExtension|])
    ensures ParseDecimal(s[|EntryPrefix|..|s| - |EntryExtension|]) == i
  {
    var s := EntryPrefix + Decimal(i) + EntryExtension;
    assert s[|EntryPrefix|..|s| - |EntryExtension|] == Decimal(i);
    ParseDecimalInverts(i);
    s
  }

  /**
   * The file name of the single download of the crop at 0-based position
   * idx: the prefix and the 1-based number, which can be read back.
   */
  function DownloadName(idx: nat): (s: string)
    ensures |s| > |EntryPrefix| && s[..|EntryPrefix|] == EntryPrefix
    ensures IsDecimal(s[|EntryPrefix|..]) && ParseDecimal(s[|EntryPrefix|..]) == idx + 1
  {
    var s := EntryPrefix + Decimal(idx + 1);
    assert s[|EntryPrefix|..] == Decimal(idx + 1);
    ParseDecimalInverts(idx + 1);
    s
  }

  /** Different crops get different entries, so no entry overwrites another. */
  lemma EntryNameInjective(i: nat, j: nat)
    ensures EntryName(i) == EntryName(j) ==> i == j
  {
    if EntryName(i) == EntryName(j) {
      var a, b := EntryName(i), EntryName(j);
      assert a[|EntryPrefix|..|a| - |EntryExtension|] == Decimal(i);
      assert b[|EntryPrefix|..|b| - |EntryExtension|] == Decimal(j);
      DecimalInjective(i, j);
    }
  }

  /** The single download of the crop at idx is named as its archive entry, without the extension. */
  lemma DownloadMatchesEntry(idx: nat)
    ensures DownloadName(idx) + EntryExtension == EntryName(idx + 1)
  {
  }

  /** Clicking a crop downloads it when its canvas is found, and does nothing otherwise. */
  function SingleDownload(idx: nat, canvasFound: bool): (name: Option<string>)
    ensures name.Some? <==> canvasFound
    ensures name.Some? ==> name.value + EntryExtension == EntryName(idx + 1)
  {
    if canvasFound then Some(DownloadName(idx)) else None
  }

  /** The finished archive: its download name, its folder and the entry names in order. */
  datatype Archive = Archive(fileName: string, folder: string, entries: seq<string>)

  /**
   * The 1-based positions whose canvas is present, in increasing order:
   * exactly the crops the export loop adds.
   */
  function ExportedIndices(canvases: seq<bool>): (r: seq<nat>)
    ensures forall k :: 0 <= k < |r| ==> 1 <= r[k] <= |canvases| && canvases[r[k] - 1]
    ensures forall k, l :: 0 <= k < l < |r| ==> r[k] < r[l]
    ensures forall i :: 1 <= i <= |canvases| && canvases[i - 1] ==> i in r
    decreases |canvases|
  {
    if canvases == [] then []
    else
      var n := |canvases|;
      ExportedIndices(canvases[..n - 1]) + (if canvases[n - 1] then [n] else [])
  }

  /** The entry names for a sequence of positions. */
  function Names(indices: seq<nat>): (r: seq<string>)
    ensures |r| == |indices|
    ensures forall k :: 0 <= k < |r| ==> r[k] == EntryName(indices[k])
  {
    seq(|indices|, k requires 0 <= k < |indices| => EntryName(indices[k]))
  }

  /**
   * The loop of `zipImagesAndDownload`: for i from 1 to the number of
   * rectangles, the crop's canvas is looked up and, when present, added to
   * the folder as `cropped-image-<i>.jpg`. canvases[i - 1] says whether the
   * canvas of the i-th crop is found; |canvases| is the number of rectangles.
   */
  method ZipImages(canvases: seq<bool>) returns (archive: Archive)
    ensures archive.fileName == ArchiveName && archive.folder == FolderName
    ensures archive.entries == Names(ExportedIndices(canvases))
  {
    var entries: seq<string> := [];
    for i := 1 to |canvases| + 1
      invariant entries == Names(ExportedIndices(canvases[..i - 1]))
    {
      if canvases[i - 1] {
        entries := entries + [EntryName(i)];
      }
      assert canvases[..i][..i - 1] == canvases[..i - 1];
    }
    assert canvases[..|canvases|] == canvases;
    archive := Archive(ArchiveName, FolderName, entries);
  }

  /** No two entries of the archive have the same name. */
  lemma EntriesDistinct(canvases: seq<bool>)
    ensures var e := Names(ExportedIndices(canvases));
      forall k, l :: 0 <= k < l < |e| ==> e[k] != e[l]
  {
    var idx := ExportedIndices(canvases);
    var e := Names(idx);
    forall k, l | 0 <= k < l < |e| ensures e[k] != e[l] {
      EntryNameInjective(idx[k], idx[l]);
    }
  }

  /** When every canvas is found, entry k is the (k + 1)-th crop's name: one per rectangle, in order. */
  lemma {:induction false} AllPresentExportsEveryCrop(canvases: seq<bool>)
    requires forall i :: 0 <= i < |canvases| ==> canvases[i]
    ensures |ExportedIndices(canvases)| == |canvases|
    ensures forall k :: 0 <= k < |canvases| ==> ExportedIndices(canvases)[k] == k + 1
    decreases |canvases|
  {
    if canvases != [] {
      AllPresentExportsEveryCrop(canvases[..|canvases| - 1]);
    }
  }

  /** Three found canvases give exactly three entries, named 1, 2, 3 in order. */
  lemma ThreeCropsExample()
    ensures Names(ExportedIndices([true, true, true]))
         == ["cropped-image-1.jpg", "cropped-image-2.jpg", "cropped-image-3.jpg"]
  {
    AllPresentExportsEveryCrop([true, true, true]);
    assert Decimal(1) == "1" && Decimal(2) == "2" && Decimal(3) == "3";
    assert EntryName(1) == "cropped-image-1.jpg";
    assert EntryName(2) == "cropped-image-2.jpg";
    assert EntryName(3) == "cropped-image-3.jpg";
  }

  /** A missing canvas is skipped without renumbering the crops after it. */
  lemma MissingCanvasSkipped()
    ensures Names(ExportedIndices([true, false, true]))
         == ["cropped-image-1.jpg", "cropped-image-3.jpg"]
  {
    var c := [true, false, true];
    assert [true][..0] == [];
    assert ExportedIndices([true]) == [1];
    assert [true, false][..1] == [true];
    assert ExportedIndices([true, false]) == [1];
    assert c[..2] == [true, false];
    assert ExportedIndices(c) == [1, 3];
    assert Decimal(1) == "1" && Decimal(3) == "3";
    assert EntryName(1) == "cropped-image-1.jpg";
    assert EntryName(3) == "cropped-image-3.jpg";
    assert Names([1, 3]) == [EntryName(1), EntryName(3)];
  }
}
