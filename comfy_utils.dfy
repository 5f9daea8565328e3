/** Release-tag resolution of src/components/utils/ComfyUtils.ts. */
module ComfyUtils {

  /** The Docker repository of the prebuilt ComfyUI images. */
  const COMFYUI_IMAGE_NAME: string := "akatzai/comfyui-env"

  /** `releases.filter(release => release !== "latest")`: the other tags, in their order. */
  function WithoutLatest(releases: seq<string>): (r: seq<string>)
    ensures forall x :: x in r <==> x in releases && x != "latest"
    ensures |r| <= |releases|
  {
    if releases == [] then []
    else if releases[0] == "latest" then WithoutLatest(releases[1..])
    else [releases[0]] + WithoutLatest(releases[1..])
  }

  /** Filtering twice is filtering once. */
  lemma {:induction false} WithoutLatestIdempotent(releases: seq<string>)
    ensures WithoutLatest(WithoutLatest(releases)) == WithoutLatest(releases)
  {
    if releases != [] {
      WithoutLatestIdempotent(releases[1..]);
    }
  }

  /** Filtering a concatenation filters each part. */
  lemma {:induction false} WithoutLatestAppend(xs: seq<string>, ys: seq<string>)
    ensures WithoutLatest(xs + ys) == WithoutLatest(xs) + WithoutLatest(ys)
  {
    if xs == [] {
      assert xs + ys == ys;
    } else {
      assert (xs + ys)[1..] == xs[1..] + ys;
      WithoutLatestAppend(xs[1..], ys);
    }
  }

  /** `getLatestComfyUIReleaseFromBranch(branch, releases)`. Because of `|| "latest"`, an empty first
      candidate also falls back to `"latest"`. */
  function LatestReleaseFromBranch(branch: string, releases: seq<string>): (r: string)
    ensures branch != "latest" ==> r == branch
    ensures branch == "latest" && WithoutLatest(releases) == [] ==> r == "latest"
    ensures r == branch || r == "latest" || r in releases
  {
    if branch == "latest" then
      var filtered := WithoutLatest(releases);
      if |filtered| > 0 && filtered[0] != "" then filtered[0] else "latest"
    else branch
  }

  /** For `"latest"`, the result is the first release that is not `"latest"` (or `"latest"` when that first
      one is the empty string). */
  lemma FirstOtherRelease(releases: seq<string>, i: nat)
    requires i < |releases| && releases[i] != "latest"
    requires forall j :: 0 <= j < i ==> releases[j] == "latest"
    ensures LatestReleaseFromBranch("latest", releases) == (if releases[i] == "" then "latest" else releases[i])
  {
    FirstOtherFiltered(releases, i);
  }

  lemma {:induction false} FirstOtherFiltered(releases: seq<string>, i: nat)
    requires i < |releases| && releases[i] != "latest"
    requires forall j :: 0 <= j < i ==> releases[j] == "latest"
    ensures |WithoutLatest(releases)| > 0 && WithoutLatest(releases)[0] == releases[i]
  {
    if i > 0 {
      FirstOtherFiltered(releases[1..], i - 1);
    }
  }

  /** Resolving is idempotent: resolving an already resolved branch gives it back. */
  lemma ResolveStable(branch: string, releases: seq<string>)
    ensures LatestReleaseFromBranch(LatestReleaseFromBranch(branch, releases), releases)
      == LatestReleaseFromBranch(branch, releases)
  {
  }
}
