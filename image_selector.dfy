/** The list processing of src/components/DockerImageSelector.tsx: parsing release tags into images, the
    version option lists, the installed-digest set, the filter and the installed-first ordering, and the
    selector's filter state and image choice. `localeCompare` with numeric collation is replaced by the
    code-point order `Strings.LexLess`. */
module DockerImageSelector {
  import opened Strings
  import opened Paths
  import opened Sorting

  /** A release tag as the selector receives it (size and date are display-only and left out). */
  datatype TagRecord = TagRecord(tagName: string, fullImageName: string, digest: string)

  /** An image already pulled locally. */
  datatype InstalledImage = InstalledImage(id: string, tag: string, digest: string)

  /** A parsed release image (lines 23-33). */
  datatype DockerImage = DockerImage(
    tag: string,
    comfyUIVersion: string,
    pythonVersion: string,
    cudaVersion: string,
    pytorchVersion: string,
    fullImageName: string,
    digest: string)

  /** Field `i` of a split tag with the first `prefix` removed, or `""` when the tag has fewer fields. */
  function TagField(fields: seq<string>, i: nat, prefix: string): string {
    if i < |fields| then RemoveFirst(fields[i], prefix) else ""
  }

  /** One tag's destructuring (lines 51-62). */
  function ParseTag(t: TagRecord): DockerImage {
    var fields := Split(t.tagName, '-');
    DockerImage(t.tagName, fields[0], TagField(fields, 1, "py"), TagField(fields, 2, "cuda"),
                TagField(fields, 3, "pt"), t.fullImageName, t.digest)
  }

  /** The tag is split on `-`: the first field is the ComfyUI version, the next three lose their first
      `py`, `cuda` and `pt`, a missing field is `""`, and the record's other fields are carried over. */
  lemma ParseTagSpec(t: TagRecord)
    ensures var img := ParseTag(t); var f := Split(t.tagName, '-');
      && img.tag == t.tagName && img.fullImageName == t.fullImageName && img.digest == t.digest
      && img.comfyUIVersion == f[0]
      && (|f| > 1 ==> img.pythonVersion == RemoveFirst(f[1], "py"))
      && (|f| > 2 ==> img.cudaVersion == RemoveFirst(f[2], "cuda"))
      && (|f| > 3 ==> img.pytorchVersion == RemoveFirst(f[3], "pt"))
      && (|f| <= 1 ==> img.pythonVersion == "")
      && (|f| <= 2 ==> img.cudaVersion == "")
      && (|f| <= 3 ==> img.pytorchVersion == "")
    ensures '-' !in t.tagName ==> ParseTag(t).comfyUIVersion == t.tagName
  {
    if '-' !in t.tagName {
      SplitFree(t.tagName, '-');
    }
  }

  /** A tag built as `<comfyui>-py<python>-cuda<cuda>-pt<pytorch>` from dash-free versions parses back into
      those four versions. */
  lemma ParseTagRoundTrip(t: TagRecord, comfy: string, py: string, cuda: string, pt: string)
    requires '-' !in comfy && '-' !in py && '-' !in cuda && '-' !in pt
    requires t.tagName == comfy + "-py" + py + "-cuda" + cuda + "-pt" + pt
    ensures var img := ParseTag(t);
      img.comfyUIVersion == comfy && img.pythonVersion == py && img.cudaVersion == cuda && img.pytorchVersion == pt
  {
    var parts := [comfy, "py" + py, "cuda" + cuda, "pt" + pt];
    JoinTagParts(comfy, py, cuda, pt);
    assert forall i :: 0 <= i < |parts| ==> '-' !in parts[i] by {
      DashFreeAfter("py", py);
      DashFreeAfter("cuda", cuda);
      DashFreeAfter("pt", pt);
    }
    SplitJoin(parts, '-');
    RemovePrefix("py", py);
    RemovePrefix("cuda", cuda);
    RemovePrefix("pt", pt);
  }

  /** The four fields of a built tag, joined with `-`, are the tag. */
  lemma JoinTagParts(comfy: string, py: string, cuda: string, pt: string)
    ensures Join([comfy, "py" + py, "cuda" + cuda, "pt" + pt], '-') == comfy + "-py" + py + "-cuda" + cuda + "-pt" + pt
  {
    var parts := [comfy, "py" + py, "cuda" + cuda, "pt" + pt];
    assert parts[1..] == ["py" + py, "cuda" + cuda, "pt" + pt];
    assert parts[1..][1..] == ["cuda" + cuda, "pt" + pt];
    assert parts[1..][1..][1..] == ["pt" + pt];
    assert Join(parts[1..][1..], '-') == "cuda" + cuda + "-" + "pt" + pt;
    assert Join(parts[1..], '-') == "py" + py + "-" + "cuda" + cuda + "-" + "pt" + pt;
  }

  lemma DashFreeAfter(p: string, v: string)
    requires '-' !in p && '-' !in v
    ensures '-' !in p + v
  {
  }

  /** Removing a prefix the string starts with leaves the rest. */
  lemma RemovePrefix(p: string, v: string)
    ensures RemoveFirst(p + v, p) == v
  {
    assert (p + v)[..|p|] == p;
    assert (p + v)[|p|..] == v;
  }

  /** Fields beyond the fourth are ignored: appending more `-` fields to a tag that already has four changes
      no version. */
  lemma ParseTagIgnoresExtraFields(t: TagRecord, extra: string)
    requires |Split(t.tagName, '-')| >= 4
    ensures var longer := ParseTag(t.(tagName := t.tagName + "-" + extra));
      longer == ParseTag(t).(tag := t.tagName + "-" + extra)
  {
    SplitAround(t.tagName, extra, '-');
    var f := Split(t.tagName, '-');
    var g := Split(t.tagName + "-" + extra, '-');
    assert g[..|f|] == f;
    assert g[0] == f[0] && g[1] == f[1] && g[2] == f[2] && g[3] == f[3];
  }

  /** The tags other than `"latest"`, in order (line 49). */
  function WithoutLatestTags(tags: seq<TagRecord>): (r: seq<TagRecord>)
    ensures forall t :: t in r <==> t in tags && t.tagName != "latest"
  {
    if tags == [] then []
    else if tags[0].tagName == "latest" then WithoutLatestTags(tags[1..])
    else [tags[0]] + WithoutLatestTags(tags[1..])
  }

  /** Filtering a concatenation filters each part: the other tags keep their order and their copies. */
  lemma {:induction false} WithoutLatestTagsAppend(xs: seq<TagRecord>, ys: seq<TagRecord>)
    ensures WithoutLatestTags(xs + ys) == WithoutLatestTags(xs) + WithoutLatestTags(ys)
  {
    if xs == [] {
      assert xs + ys == ys;
    } else {
      assert (xs + ys)[0] == xs[0] && (xs + ys)[1..] == xs[1..] + ys;
      WithoutLatestTagsAppend(xs[1..], ys);
    }
  }

  function ParseAll(tags: seq<TagRecord>): (r: seq<DockerImage>)
    ensures |r| == |tags| && forall i :: 0 <= i < |tags| ==> r[i] == ParseTag(tags[i])
  {
    seq(|tags|, i requires 0 <= i < |tags| => ParseTag(tags[i]))
  }

  /** A nightly PyTorch build (line 84). */
  predicate Nightly(img: DockerImage) {
    Includes(img.pytorchVersion, "nightly")
  }

  /** The comparator of lines 67-93: `a` strictly before `b`. ComfyUI, Python and CUDA versions descending,
      then stable before nightly, then the PyTorch version descending. */
  predicate ImageLess(a: DockerImage, b: DockerImage) {
    if a.comfyUIVersion != b.comfyUIVersion then LexLess(b.comfyUIVersion, a.comfyUIVersion)
    else if a.pythonVersion != b.pythonVersion then LexLess(b.pythonVersion, a.pythonVersion)
    else if a.cudaVersion != b.cudaVersion then LexLess(b.cudaVersion, a.cudaVersion)
    else if Nightly(a) != Nightly(b) then !Nightly(a)
    else LexLess(b.pytorchVersion, a.pytorchVersion)
  }

  /** `x` is no smaller than `y` and `z` no smaller than `x`, one of them strictly: `z` is above `y`. */
  lemma LexChain(x: string, y: string, z: string)
    requires x == y || LexLess(x, y)
    requires y == z || LexLess(y, z)
    requires x != y || y != z
    ensures x != z && LexLess(x, z)
  {
    if x != y && y != z {
      LexTransitive(x, y, z);
    }
    if x == z {
      LexIrreflexive(x);
    }
  }

  lemma ImageLessTransitive(a: DockerImage, b: DockerImage, c: DockerImage)
    requires ImageLess(a, b) && ImageLess(b, c)
    ensures ImageLess(a, c)
  {
    if a.comfyUIVersion != b.comfyUIVersion || b.comfyUIVersion != c.comfyUIVersion {
      LexChain(c.comfyUIVersion, b.comfyUIVersion, a.comfyUIVersion);
    } else if a.pythonVersion != b.pythonVersion || b.pythonVersion != c.pythonVersion {
      LexChain(c.pythonVersion, b.pythonVersion, a.pythonVersion);
    } else if a.cudaVersion != b.cudaVersion || b.cudaVersion != c.cudaVersion {
      LexChain(c.cudaVersion, b.cudaVersion, a.cudaVersion);
    } else if Nightly(a) == Nightly(b) && Nightly(b) == Nightly(c) {
      LexTransitive(c.pytorchVersion, b.pytorchVersion, a.pytorchVersion);
    }
  }

  /** The image comparator is a strict order, so sorting by it is well defined. */
  lemma ImageLessStrict()
    ensures StrictOrder(ImageLess)
  {
    forall a ensures !ImageLess(a, a) {
      LexIrreflexive(a.pytorchVersion);
    }
    forall a, b, c | ImageLess(a, b) && ImageLess(b, c) ensures ImageLess(a, c) {
      ImageLessTransitive(a, b, c);
    }
  }

  /** When `a` is listed before `b` in a list sorted by the comparator, the first key on which they differ
      puts `a` first: a higher ComfyUI version, else a higher Python version, else a higher CUDA version,
      else stable before nightly, else a higher PyTorch version. */
  lemma ImageOrderKeys(a: DockerImage, b: DockerImage)
    requires !ImageLess(b, a)
    ensures a.comfyUIVersion != b.comfyUIVersion ==> LexLess(b.comfyUIVersion, a.comfyUIVersion)
    ensures a.comfyUIVersion == b.comfyUIVersion && a.pythonVersion != b.pythonVersion
      ==> LexLess(b.pythonVersion, a.pythonVersion)
    ensures a.comfyUIVersion == b.comfyUIVersion && a.pythonVersion == b.pythonVersion && a.cudaVersion != b.cudaVersion
      ==> LexLess(b.cudaVersion, a.cudaVersion)
    ensures a.comfyUIVersion == b.comfyUIVersion && a.pythonVersion == b.pythonVersion && a.cudaVersion == b.cudaVersion
      ==> (Nightly(a) ==> Nightly(b))
    ensures a.comfyUIVersion == b.comfyUIVersion && a.pythonVersion == b.pythonVersion && a.cudaVersion == b.cudaVersion
      && Nightly(a) == Nightly(b) && a.pytorchVersion != b.pytorchVersion
      ==> LexLess(b.pytorchVersion, a.pytorchVersion)
  {
    if a.comfyUIVersion != b.comfyUIVersion {
      LexTotal(a.comfyUIVersion, b.comfyUIVersion);
    } else if a.pythonVersion != b.pythonVersion {
      LexTotal(a.pythonVersion, b.pythonVersion);
    } else if a.cudaVersion != b.cudaVersion {
      LexTotal(a.cudaVersion, b.cudaVersion);
    } else if Nightly(a) == Nightly(b) && a.pytorchVersion != b.pytorchVersion {
      LexTotal(a.pytorchVersion, b.pytorchVersion);
    }
  }

  /** `parsedImages` (lines 48-94). */
  function ParsedImages(tags: seq<TagRecord>): seq<DockerImage> {
    Sort(ParseAll(WithoutLatestTags(tags)), ImageLess)
  }

  /** The parsed list holds exactly the parses of the tags other than `"latest"`, as many times as they
      occur, never an image tagged `"latest"`, and is sorted by the comparator. */
  lemma ParsedImagesSpec(tags: seq<TagRecord>)
    ensures var r := ParsedImages(tags);
      && multiset(r) == multiset(ParseAll(WithoutLatestTags(tags)))
      && (forall img :: img in r <==> exists t :: t in tags && t.tagName != "latest" && img == ParseTag(t))
      && (forall i :: 0 <= i < |r| ==> r[i].tag != "latest")
      && Sorted(r, ImageLess)
  {
    ImageLessStrict();
    var kept := WithoutLatestTags(tags);
    var p := ParseAll(kept);
    SortSorted(p, ImageLess);
    var r := ParsedImages(tags);
    forall img ensures img in r <==> exists t :: t in tags && t.tagName != "latest" && img == ParseTag(t) {
      assert img in r <==> img in multiset(p);
      if img in p {
        var i :| 0 <= i < |p| && p[i] == img;
        assert kept[i] in kept;
      }
      if exists t :: t in tags && t.tagName != "latest" && img == ParseTag(t) {
        var t :| t in tags && t.tagName != "latest" && img == ParseTag(t);
        var i :| 0 <= i < |kept| && kept[i] == t;
        assert p[i] == img;
      }
    }
    forall i | 0 <= i < |r| ensures r[i].tag != "latest" {
      assert r[i] in multiset(p);
      var k :| 0 <= k < |p| && p[k] == r[i];
      assert kept[k] in kept;
    }
  }

  /** `Array.from(new Set(values))`: the first occurrence of each value, in order. */
  function Dedup(values: seq<string>): (r: seq<string>)
    ensures forall x :: x in r <==> x in values
    ensures forall x :: multiset(r)[x] <= 1
  {
    if values == [] then []
    else
      var d := Dedup(values[..|values| - 1]);
      var last := values[|values| - 1];
      assert values == values[..|values| - 1] + [last];
      if last in d then d else d + [last]
  }

  /** The version comparator `(a, b) => b.localeCompare(a)`: descending. */
  predicate Descending(a: string, b: string) {
    LexLess(b, a)
  }

  /** One version option list (lines 97-114): the distinct values, highest first. */
  function VersionOptions(values: seq<string>): seq<string> {
    Sort(Dedup(values), Descending)
  }

  lemma DescendingStrict()
    ensures StrictOrder(Descending)
  {
    forall a ensures !Descending(a, a) {
      LexIrreflexive(a);
    }
    forall a, b, c | Descending(a, b) && Descending(b, c) ensures Descending(a, c) {
      LexTransitive(c, b, a);
    }
  }

  /** An option list holds each value that occurs exactly once and is strictly descending. */
  lemma VersionOptionsSpec(values: seq<string>)
    ensures var r := VersionOptions(values);
      && (forall x :: x in r <==> x in values)
      && (forall i, j :: 0 <= i < j < |r| ==> r[i] != r[j] && LexLess(r[j], r[i]))
  {
    DescendingStrict();
    var d := Dedup(values);
    SortSorted(d, Descending);
    var r := VersionOptions(values);
    forall x ensures x in r <==> x in values {
      assert x in r <==> x in multiset(d);
    }
    forall i, j | 0 <= i < j < |r| ensures r[i] != r[j] && LexLess(r[j], r[i]) {
      if r[i] == r[j] {
        RepeatCounted(r, i, j);
      }
      LexTotal(r[i], r[j]);
    }
  }

  /** The three version columns the selector offers a list for. */
  datatype VersionField = ComfyUIField | PythonField | CudaField

  function FieldOf(image: DockerImage, field: VersionField): string {
    match field
    case ComfyUIField => image.comfyUIVersion
    case PythonField => image.pythonVersion
    case CudaField => image.cudaVersion
  }

  /** One of the selector's option lists (the ComfyUI, Python and CUDA lists), from one parsed list. */
  function Versions(images: seq<DockerImage>, field: VersionField): seq<string> {
    VersionOptions(seq(|images|, i requires 0 <= i < |images| => FieldOf(images[i], field)))
  }

  /** Each list offers exactly the values some image has in that column, without repeats and highest first. */
  lemma VersionsSpec(images: seq<DockerImage>, field: VersionField)
    ensures forall v :: v in Versions(images, field) <==> exists i :: 0 <= i < |images| && FieldOf(images[i], field) == v
    ensures var r := Versions(images, field); forall i, j :: 0 <= i < j < |r| ==> LexLess(r[j], r[i])
  {
    var c := seq(|images|, i requires 0 <= i < |images| => FieldOf(images[i], field));
    assert Versions(images, field) == VersionOptions(c);
    VersionOptionsSpec(c);
    forall v ensures v in c <==> exists i :: 0 <= i < |images| && FieldOf(images[i], field) == v {
      if v in c { var i :| 0 <= i < |c| && c[i] == v; }
      if exists i :: 0 <= i < |images| && FieldOf(images[i], field) == v {
        var i :| 0 <= i < |images| && FieldOf(images[i], field) == v;
        assert c[i] == v;
      }
    }
  }

  /** `installedDigests` (lines 125-133): the non-empty digests of the installed images. */
  method InstalledDigests(installed: seq<InstalledImage>) returns (digests: set<string>)
    ensures forall d :: d in digests <==> d != "" && exists i :: 0 <= i < |installed| && installed[i].digest == d
  {
    digests := {};
    var k := 0;
    while k < |installed|
      invariant 0 <= k <= |installed|
      invariant forall d :: d in digests <==> d != "" && exists i :: 0 <= i < k && installed[i].digest == d
    {
      if installed[k].digest != "" {
        digests := digests + {installed[k].digest};
      }
      k := k + 1;
    }
  }

  /** `isImageInstalled` (lines 136-138) as evidently intended: an empty digest counts as not installed. */
  predicate IsImageInstalled(digest: string, digests: set<string>) {
    digest != "" && digest in digests
  }

  /** What `digest && installedDigests.has(digest)` returns as written: the empty string itself when the
      digest is empty, a boolean otherwise. */
  datatype InstalledFlag = EmptyDigest | Flag(installed: bool)

  /** `isImageInstalled` as written. Its truthiness is the intended flag; its value is not. */
  function IsImageInstalledAsWritten(digest: string, digests: set<string>): (r: InstalledFlag)
    ensures (r.Flag? && r.installed) == IsImageInstalled(digest, digests)
    ensures r == EmptyDigest <==> digest == ""
  {
    if digest == "" then EmptyDigest else Flag(digest in digests)
  }

  /** The four filter controls (lines 117-120). */
  datatype ImageFilter = ImageFilter(selectedComfyUI: string, selectedPython: string, selectedCuda: string, searchTerm: string)

  /** The controls' initial values: every selector on `"all"` and no search text. */
  const NoFilter := ImageFilter("all", "all", "all", "")

  /** The filter predicate of lines 142-151. */
  predicate Matches(img: DockerImage, f: ImageFilter) {
    && (f.selectedComfyUI == "all" || img.comfyUIVersion == f.selectedComfyUI)
    && (f.selectedPython == "all" || img.pythonVersion == f.selectedPython)
    && (f.selectedCuda == "all" || img.cudaVersion == f.selectedCuda)
    && (f.searchTerm == "" || Includes(ToLowerAscii(img.tag), ToLowerAscii(f.searchTerm)))
  }

  /** `parsedImages.filter(...)`: the matching images, in order. */
  function FilterImages(images: seq<DockerImage>, f: ImageFilter): (r: seq<DockerImage>)
    ensures forall img :: img in r <==> img in images && Matches(img, f)
    ensures |r| <= |images|
  {
    if images == [] then []
    else if Matches(images[0], f) then [images[0]] + FilterImages(images[1..], f)
    else FilterImages(images[1..], f)
  }

  /** Filtering a concatenation filters each part: the matching images keep their order and their copies. */
  lemma {:induction false} FilterImagesAppend(xs: seq<DockerImage>, ys: seq<DockerImage>, f: ImageFilter)
    ensures FilterImages(xs + ys, f) == FilterImages(xs, f) + FilterImages(ys, f)
  {
    if xs == [] {
      assert xs + ys == ys;
    } else {
      assert (xs + ys)[0] == xs[0] && (xs + ys)[1..] == xs[1..] + ys;
      FilterImagesAppend(xs[1..], ys, f);
    }
  }

  lemma LowerIdempotent(s: string)
    ensures ToLowerAscii(ToLowerAscii(s)) == ToLowerAscii(s)
  {
  }

  /** The search ignores ASCII case: searching for the lower-cased text selects the same images. */
  lemma SearchIgnoresCase(img: DockerImage, f: ImageFilter)
    ensures Matches(img, f) == Matches(img, f.(searchTerm := ToLowerAscii(f.searchTerm)))
  {
    LowerIdempotent(f.searchTerm);
  }

  lemma IncludesEmpty(s: string)
    ensures Includes(s, "")
  {
  }

  /** With the initial controls nothing is filtered out. */
  lemma {:induction false} NoFilterKeepsAll(images: seq<DockerImage>)
    ensures FilterImages(images, NoFilter) == images
  {
    if images != [] {
      NoFilterKeepsAll(images[1..]);
      assert images == [images[0]] + images[1..];
    }
  }

  /** The comparator of lines 152-187: installed images first, then the image comparator. */
  predicate InstalledLess(digests: set<string>, a: DockerImage, b: DockerImage) {
    var aInstalled := IsImageInstalled(a.digest, digests);
    var bInstalled := IsImageInstalled(b.digest, digests);
    if aInstalled != bInstalled then aInstalled else ImageLess(a, b)
  }

  /** The comparator of lines 152-187 as written, by its sign: an unequal pair of flags (`!==`, so `""` and
      `false` are unequal) puts the truthy one first, and equal flags fall through to the image comparator. */
  function InstalledCompareAsWritten(digests: set<string>, a: DockerImage, b: DockerImage): (r: int)
    ensures -1 <= r <= 1
  {
    var aInstalled := IsImageInstalledAsWritten(a.digest, digests);
    var bInstalled := IsImageInstalledAsWritten(b.digest, digests);
    if aInstalled != bInstalled then (if aInstalled.Flag? && aInstalled.installed then -1 else 1)
    else if ImageLess(a, b) then -1
    else if ImageLess(b, a) then 1
    else 0
  }

  /** As written, an image with an empty digest and an image that is not installed each sort after the
      other, so the comparator is not consistent and the order `sort` gives them is up to the engine. */
  lemma EmptyDigestInconsistent(digests: set<string>, a: DockerImage, b: DockerImage)
    requires a.digest == "" && b.digest != "" && b.digest !in digests
    ensures InstalledCompareAsWritten(digests, a, b) > 0 && InstalledCompareAsWritten(digests, b, a) > 0
    ensures !InstalledLess(digests, a, b) || !InstalledLess(digests, b, a)
  {
    ImageLessStrict();
  }

  /** Everywhere else the comparator as written and the intended one agree: unless exactly one of the two
      digests is empty and the other image is not installed, `a` sorts first as written iff it does in the
      intended order. */
  lemma InstalledCompareAgrees(digests: set<string>, a: DockerImage, b: DockerImage)
    requires (a.digest == "") == (b.digest == "") || IsImageInstalled(a.digest, digests) || IsImageInstalled(b.digest, digests)
    ensures InstalledCompareAsWritten(digests, a, b) < 0 <==> InstalledLess(digests, a, b)
  {
  }

  function InstalledOrder(digests: set<string>): (DockerImage, DockerImage) -> bool {
    (a, b) => InstalledLess(digests, a, b)
  }

  lemma InstalledLessStrict(digests: set<string>)
    ensures StrictOrder(InstalledOrder(digests))
  {
    var less := InstalledOrder(digests);
    forall a ensures !less(a, a) {
      LexIrreflexive(a.pytorchVersion);
    }
    forall a, b, c | less(a, b) && less(b, c) ensures less(a, c) {
      if IsImageInstalled(a.digest, digests) == IsImageInstalled(b.digest, digests)
        && IsImageInstalled(b.digest, digests) == IsImageInstalled(c.digest, digests) {
        ImageLessTransitive(a, b, c);
      }
    }
  }

  /** `filteredImages` (lines 141-188). */
  function FilteredImages(images: seq<DockerImage>, f: ImageFilter, digests: set<string>): seq<DockerImage> {
    Sort(FilterImages(images, f), InstalledOrder(digests))
  }

  /** The shown list holds exactly the matching parsed images, every installed image comes before every
      image that is not installed, and images with the same status follow the image comparator's key order. */
  lemma FilteredImagesSpec(images: seq<DockerImage>, f: ImageFilter, digests: set<string>)
    ensures var r := FilteredImages(images, f, digests);
      && multiset(r) == multiset(FilterImages(images, f))
      && (forall img :: img in r <==> img in images && Matches(img, f))
      && (forall i, j :: 0 <= i < j < |r| && IsImageInstalled(r[j].digest, digests) ==> IsImageInstalled(r[i].digest, digests))
      && (forall i, j :: 0 <= i < j < |r| && IsImageInstalled(r[i].digest, digests) == IsImageInstalled(r[j].digest, digests)
            ==> !ImageLess(r[j], r[i]))
  {
    InstalledLessStrict(digests);
    var m := FilterImages(images, f);
    SortSorted(m, InstalledOrder(digests));
    var r := FilteredImages(images, f, digests);
    forall img ensures img in r <==> img in images && Matches(img, f) {
      assert img in r <==> img in multiset(m);
    }
    forall i, j | 0 <= i < j < |r| ensures !InstalledLess(digests, r[j], r[i]) {
      assert !InstalledOrder(digests)(r[j], r[i]);
    }
  }

  /** The selector's own state: whether it is open, the four controls, and the images handed to
      `onSelect`. */
  class ImageSelector {
    var open: bool
    var filter: ImageFilter
    var selected: seq<string>

    constructor(open: bool)
      ensures this.open == open && filter == NoFilter && selected == []
    {
      this.open := open;
      filter := NoFilter;
      selected := [];
    }

    /** The list shown for the given release tags and installed images. */
    function Shown(tags: seq<TagRecord>, digests: set<string>): seq<DockerImage>
      reads this
    {
      FilteredImages(ParsedImages(tags), filter, digests)
    }

    /** A change of one of the four controls. */
    method SetFilter(f: ImageFilter)
      modifies this
      ensures filter == f && open == old(open) && selected == old(selected)
    {
      filter := f;
    }

    /** `handleSelectImage` (lines 190-194): `onSelect` receives the image, then the selector closes. */
    method HandleSelectImage(image: string)
      modifies this
      ensures selected == old(selected) + [image] && !open && filter == old(filter)
    {
      selected := selected + [image];
      open := false;
    }
  }
}
