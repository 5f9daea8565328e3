/** The release list of src/hooks/use-comfyui-releases.ts: the fetched tags normalised so that `"latest"`
    comes first, a page-lifetime cache shared by every user of the hook, and the hook's own state. */
module ComfyUIReleases {
  import opened Wrappers
  import opened ComfyUtils

  /** `["latest", ...tags.filter(tag => tag !== "latest")]` */
  function NormaliseReleases(tags: seq<string>): seq<string> {
    ["latest"] + WithoutLatest(tags)
  }

  /** The shape every normalised list has: `"latest"` first and nowhere else. */
  predicate Normalised(releases: seq<string>) {
    |releases| >= 1 && releases[0] == "latest" && "latest" !in releases[1..]
  }

  /** A normalised list starts with `"latest"`, holds it exactly once, and otherwise holds the fetched tags
      other than `"latest"` in their original order; normalising again changes nothing. */
  lemma NormaliseReleasesSpec(tags: seq<string>)
    ensures Normalised(NormaliseReleases(tags))
    ensures multiset(NormaliseReleases(tags))["latest"] == 1
    ensures NormaliseReleases(tags)[1..] == WithoutLatest(tags)
    ensures NormaliseReleases(NormaliseReleases(tags)) == NormaliseReleases(tags)
  {
    var r := NormaliseReleases(tags);
    assert r[1..] == WithoutLatest(tags);
    assert r == [r[0]] + r[1..];
    assert multiset(r) == multiset{"latest"} + multiset(r[1..]);
    assert "latest" !in multiset(r[1..]);
    WithoutLatestIdempotent(tags);
  }

  /** The module-level `cachedReleases` variable: `null` until the first successful fetch. */
  class ReleasesCache {
    var cached: Option<seq<string>>

    constructor()
      ensures cached == None
    {
      cached := None;
    }

    ghost predicate Valid()
      reads this
    {
      cached.Some? ==> Normalised(cached.value)
    }
  }

  /** One mounted `useComfyUIReleases` hook. `fetches` counts the calls of `getComfyUIImageTags`. */
  class ReleasesHook {
    var releaseOptions: seq<string>
    var isLoading: bool
    var error: Option<string>
    var fetches: nat
    const cache: ReleasesCache

    ghost predicate Valid()
      reads this, cache
    {
      cache.Valid() && (releaseOptions == [] || Normalised(releaseOptions))
    }

    constructor(cache: ReleasesCache)
      requires cache.Valid()
      ensures this.cache == cache && releaseOptions == [] && isLoading && error == None && fetches == 0
      ensures Valid()
    {
      this.cache := cache;
      releaseOptions := [];
      isLoading := true;
      error := None;
      fetches := 0;
    }

    /** The mount effect's fetch (lines 14-41). With the cache set, the options become the cached list and
        nothing is fetched; otherwise `fetch` is the result of `getComfyUIImageTags`. */
    method FetchOnMount(fetch: Outcome<seq<string>>)
      requires Valid()
      modifies this, cache
      ensures Valid() && !isLoading
      ensures old(cache.cached).Some? ==>
        releaseOptions == old(cache.cached).value && fetches == old(fetches)
        && cache.cached == old(cache.cached) && error == old(error)
      ensures old(cache.cached).None? ==> fetches == old(fetches) + 1
      ensures old(cache.cached).None? && fetch.Returned? ==>
        releaseOptions == NormaliseReleases(fetch.value) && cache.cached == Some(releaseOptions) && error == None
      ensures old(cache.cached).None? && fetch.Threw? ==>
        releaseOptions == old(releaseOptions) && cache.cached == old(cache.cached)
        && error == Some(MessageOr(fetch.error, "Failed to fetch releases"))
    {
      if cache.cached.Some? {
        releaseOptions := cache.cached.value;
        isLoading := false;
        return;
      }
      isLoading := true;
      Fetch(fetch, "Failed to fetch releases");
    }

    /** `refresh` (lines 54-71): always fetches, whatever the cache holds, and overwrites it on success. */
    method Refresh(fetch: Outcome<seq<string>>)
      requires Valid()
      modifies this, cache
      ensures Valid() && !isLoading
      ensures fetches == old(fetches) + 1
      ensures fetch.Returned? ==>
        releaseOptions == NormaliseReleases(fetch.value) && cache.cached == Some(releaseOptions) && error == None
      ensures fetch.Threw? ==>
        releaseOptions == old(releaseOptions) && cache.cached == old(cache.cached)
        && error == Some(MessageOr(fetch.error, "Failed to refresh releases"))
    {
      isLoading := true;
      Fetch(fetch, "Failed to refresh releases");
    }

    /** The shared `try`/`catch`/`finally` around `getComfyUIImageTags`. */
    method Fetch(fetch: Outcome<seq<string>>, fallback: string)
      requires Valid()
      modifies this, cache
      ensures Valid() && !isLoading && fetches == old(fetches) + 1
      ensures fetch.Returned? ==>
        releaseOptions == NormaliseReleases(fetch.value) && cache.cached == Some(releaseOptions) && error == None
      ensures fetch.Threw? ==>
        releaseOptions == old(releaseOptions) && cache.cached == old(cache.cached)
        && error == Some(MessageOr(fetch.error, fallback))
    {
      fetches := fetches + 1;
      match fetch {
        case Returned(tags) =>
          var releases := NormaliseReleases(tags);
          NormaliseReleasesSpec(tags);
          cache.cached := Some(releases);
          releaseOptions := releases;
          error := None;
        case Threw(e) =>
          error := Some(MessageOr(e, fallback));
      }
      isLoading := false;
    }
  }
}
