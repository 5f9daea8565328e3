/** The mount policy of src/components/utils/MountConfigUtils.ts: single mount records, the per-type
    presets, the normaliser for stored mount configs, and the host-path recomputation that the form, the
    install hook and the image-first dialog all apply. */
module MountConfigUtils {
  import opened Wrappers
  import opened Strings
  import opened Paths
  import opened Environment

  /** Where ComfyUI lives inside the container. */
  const CONTAINER_COMFYUI_PATH: string := "/app/ComfyUI"

  /** `createMountConfig(containerDir, comfyUIPath, action)`. */
  function CreateMountConfig(containerDir: string, comfyUIPath: string, action: MountAction): MountEntry {
    MountEntry(CONTAINER_COMFYUI_PATH + "/" + containerDir, JoinPaths(comfyUIPath, containerDir), action, false, false)
  }

  /** A record built by `createMountConfig` for a plain directory name lives under the container's ComfyUI
      directory, names that directory as its last segment, takes its host path from it, is writable and not
      overridden; recomputing its host path against the same ComfyUI path changes nothing. */
  lemma CreateMountConfigShape(containerDir: string, comfyUIPath: string, action: MountAction)
    requires '/' !in containerDir
    ensures var m := CreateMountConfig(containerDir, comfyUIPath, action);
      StartsWith(m.container_path, CONTAINER_COMFYUI_PATH + "/")
      && LastSegment(m.container_path) == containerDir
      && m.host_path == JoinPaths(comfyUIPath, LastSegment(m.container_path))
      && m.action == action && !m.read_only && !m.override
      && RecomputeHostPath(m, comfyUIPath) == m
  {
    var m := CreateMountConfig(containerDir, comfyUIPath, action);
    LastSegmentOfChild(CONTAINER_COMFYUI_PATH, containerDir);
    assert m.container_path[..|CONTAINER_COMFYUI_PATH + "/"|] == CONTAINER_COMFYUI_PATH + "/";
  }

  /** The switch of `getDefaultMountConfigsForEnvType`: the directory and action of each preset binding,
      in order. The switch has no `Auto` case, so `Auto` has no preset at all. */
  function PresetBindings(envType: EnvironmentType): Option<seq<(string, MountAction)>> {
    match envType
    case Default => Some([("models", Mount), ("output", Mount), ("input", Mount)])
    case DefaultPlusWorkflows => Some([("user", Mount), ("models", Mount), ("output", Mount), ("input", Mount)])
    case DefaultPlusCustomNodes =>
      Some([("custom_nodes", Copy), ("models", Mount), ("output", Mount), ("input", Mount)])
    case DefaultPlusBoth =>
      Some([("custom_nodes", Copy), ("user", Mount), ("models", Mount), ("output", Mount), ("input", Mount)])
    case Isolated => Some([])
    case Custom => Some([])
    case Auto => None
  }

  /** One `createMountConfig` call per binding. */
  function CreateMountConfigs(bindings: seq<(string, MountAction)>, comfyUIPath: string): (r: seq<MountEntry>)
    ensures |r| == |bindings|
    ensures forall i :: 0 <= i < |bindings| ==> r[i] == CreateMountConfig(bindings[i].0, comfyUIPath, bindings[i].1)
  {
    if bindings == [] then []
    else [CreateMountConfig(bindings[0].0, comfyUIPath, bindings[0].1)] + CreateMountConfigs(bindings[1..], comfyUIPath)
  }

  /** `getDefaultMountConfigsForEnvType(envType, comfyUIPath)`. */
  function DefaultMounts(envType: EnvironmentType, comfyUIPath: string): Option<seq<MountEntry>> {
    match PresetBindings(envType)
    case Some(bindings) => Some(CreateMountConfigs(bindings, comfyUIPath))
    case None => None
  }

  /** The `container_path` of each binding, in order. */
  function ContainerPaths(ms: seq<MountEntry>): (r: seq<string>)
    ensures |r| == |ms| && forall i :: 0 <= i < |ms| ==> r[i] == ms[i].container_path
  {
    if ms == [] then [] else [ms[0].container_path] + ContainerPaths(ms[1..])
  }

  /** The presets' container paths, in order: Default is models, output, input; Workflows puts user in
      front; CustomNodes puts custom_nodes in front; Both puts custom_nodes then user in front. Isolated and
      Custom have no bindings and Auto has no preset. */
  lemma PresetLayout(envType: EnvironmentType, comfyUIPath: string)
    ensures DefaultMounts(envType, comfyUIPath).None? <==> envType == Auto
    ensures envType == Isolated || envType == Custom ==> DefaultMounts(envType, comfyUIPath) == Some([])
    ensures envType == Default ==>
      ContainerPaths(DefaultMounts(envType, comfyUIPath).value)
        == ["/app/ComfyUI/models", "/app/ComfyUI/output", "/app/ComfyUI/input"]
    ensures envType == DefaultPlusWorkflows ==>
      ContainerPaths(DefaultMounts(envType, comfyUIPath).value)
        == ["/app/ComfyUI/user", "/app/ComfyUI/models", "/app/ComfyUI/output", "/app/ComfyUI/input"]
    ensures envType == DefaultPlusCustomNodes ==>
      ContainerPaths(DefaultMounts(envType, comfyUIPath).value)
        == ["/app/ComfyUI/custom_nodes", "/app/ComfyUI/models", "/app/ComfyUI/output", "/app/ComfyUI/input"]
    ensures envType == DefaultPlusBoth ==>
      ContainerPaths(DefaultMounts(envType, comfyUIPath).value)
        == ["/app/ComfyUI/custom_nodes", "/app/ComfyUI/user", "/app/ComfyUI/models",
            "/app/ComfyUI/output", "/app/ComfyUI/input"]
  {
    PresetDirPaths();
    var models, output, input := "/app/ComfyUI/models", "/app/ComfyUI/output", "/app/ComfyUI/input";
    match envType
    case Default =>
      PresetPaths(PresetBindings(envType).value, comfyUIPath, [models, output, input]);
    case DefaultPlusWorkflows =>
      PresetPaths(PresetBindings(envType).value, comfyUIPath, ["/app/ComfyUI/user", models, output, input]);
    case DefaultPlusCustomNodes =>
      PresetPaths(PresetBindings(envType).value, comfyUIPath, ["/app/ComfyUI/custom_nodes", models, output, input]);
    case DefaultPlusBoth =>
      PresetPaths(PresetBindings(envType).value, comfyUIPath,
        ["/app/ComfyUI/custom_nodes", "/app/ComfyUI/user", models, output, input]);
    case _ =>
  }

  /** The five preset directories under the container's ComfyUI directory. */
  lemma PresetDirPaths()
    ensures CONTAINER_COMFYUI_PATH + "/" + "models" == "/app/ComfyUI/models"
    ensures CONTAINER_COMFYUI_PATH + "/" + "output" == "/app/ComfyUI/output"
    ensures CONTAINER_COMFYUI_PATH + "/" + "input" == "/app/ComfyUI/input"
    ensures CONTAINER_COMFYUI_PATH + "/" + "user" == "/app/ComfyUI/user"
    ensures CONTAINER_COMFYUI_PATH + "/" + "custom_nodes" == "/app/ComfyUI/custom_nodes"
  {
  }

  /** The container paths of the records built for some bindings are the bindings' directories under the
      container's ComfyUI directory. */
  lemma PresetPaths(bindings: seq<(string, MountAction)>, comfyUIPath: string, expected: seq<string>)
    requires |expected| == |bindings|
    requires forall i :: 0 <= i < |bindings| ==> expected[i] == CONTAINER_COMFYUI_PATH + "/" + bindings[i].0
    ensures ContainerPaths(CreateMountConfigs(bindings, comfyUIPath)) == expected
  {
  }

  /** The directory names the presets use. */
  const PresetDirs: seq<string> := ["models", "output", "input", "user", "custom_nodes"]

  /** Every preset binding names one of the five directories, and only custom_nodes is copied. */
  lemma PresetBindingsDirs(envType: EnvironmentType)
    requires envType != Auto
    ensures forall b :: b in PresetBindings(envType).value ==>
      b.0 in PresetDirs && '/' !in b.0 && (b.1 == Copy <==> b.0 == "custom_nodes")
  {
  }

  /** In every preset, each binding lives under the container's ComfyUI directory and names one of the five
      directories as its last segment, only the custom_nodes binding is copied, none is read-only or
      overridden, and each already carries the host path that recomputation against the same ComfyUI path
      would give it. */
  lemma PresetEntries(envType: EnvironmentType, comfyUIPath: string)
    requires envType != Auto
    ensures forall m :: m in DefaultMounts(envType, comfyUIPath).value ==>
      StartsWith(m.container_path, "/app/ComfyUI/")
      && LastSegment(m.container_path) in PresetDirs
      && (m.action == Copy <==> LastSegment(m.container_path) == "custom_nodes")
      && !m.read_only && !m.override
      && m.host_path == JoinPaths(comfyUIPath, LastSegment(m.container_path))
  {
    PresetBindingsDirs(envType);
    MountsFromPresetDirs(PresetBindings(envType).value, comfyUIPath);
  }

  lemma MountsFromPresetDirs(bindings: seq<(string, MountAction)>, comfyUIPath: string)
    requires forall b :: b in bindings ==>
      b.0 in PresetDirs && '/' !in b.0 && (b.1 == Copy <==> b.0 == "custom_nodes")
    ensures forall m :: m in CreateMountConfigs(bindings, comfyUIPath) ==>
      StartsWith(m.container_path, "/app/ComfyUI/")
      && LastSegment(m.container_path) in PresetDirs
      && (m.action == Copy <==> LastSegment(m.container_path) == "custom_nodes")
      && !m.read_only && !m.override
      && m.host_path == JoinPaths(comfyUIPath, LastSegment(m.container_path))
  {
    var ms := CreateMountConfigs(bindings, comfyUIPath);
    forall m | m in ms
      ensures StartsWith(m.container_path, "/app/ComfyUI/")
        && LastSegment(m.container_path) in PresetDirs
        && (m.action == Copy <==> LastSegment(m.container_path) == "custom_nodes")
        && !m.read_only && !m.override
        && m.host_path == JoinPaths(comfyUIPath, LastSegment(m.container_path))
    {
      var i :| 0 <= i < |ms| && ms[i] == m;
      assert bindings[i] in bindings;
      CreateMountConfigShape(bindings[i].0, comfyUIPath, bindings[i].1);
    }
  }

  /** The `map` step shared by the form effect, the install hook and the image-first dialog: a binding
      without `override` gets the host path derived from its container directory; an overridden one is
      kept as it is. */
  function RecomputeHostPath(m: MountEntry, comfyUIPath: string): MountEntry {
    if m.override then m else m.(host_path := JoinPaths(comfyUIPath, LastSegment(m.container_path)))
  }

  /** Recomputation over a list keeps its length and order, keeps overridden bindings identical, changes
      nothing but `host_path` in the others, and sets that to the path derived from the container
      directory. */
  function RecomputeHostPaths(ms: seq<MountEntry>, comfyUIPath: string): (r: seq<MountEntry>)
    ensures |r| == |ms|
    ensures forall i :: 0 <= i < |ms| && ms[i].override ==> r[i] == ms[i]
    ensures forall i :: 0 <= i < |ms| ==> r[i] == ms[i].(host_path := r[i].host_path)
    ensures forall i :: 0 <= i < |ms| && !ms[i].override ==>
      r[i].host_path == JoinPaths(comfyUIPath, LastSegment(ms[i].container_path))
  {
    if ms == [] then [] else [RecomputeHostPath(ms[0], comfyUIPath)] + RecomputeHostPaths(ms[1..], comfyUIPath)
  }

  /** Only the latest path matters: recomputing twice is recomputing once against the second path. */
  lemma RecomputeLastWins(ms: seq<MountEntry>, p: string, q: string)
    ensures RecomputeHostPaths(RecomputeHostPaths(ms, p), q) == RecomputeHostPaths(ms, q)
  {
    var a := RecomputeHostPaths(RecomputeHostPaths(ms, p), q);
    var b := RecomputeHostPaths(ms, q);
    assert forall i :: 0 <= i < |ms| ==> a[i] == b[i];
  }

  /** Recomputing a `createMountConfig` record of a plain directory name against a new path gives the
      record for the new path. */
  lemma RecomputeCreated(containerDir: string, p: string, q: string, action: MountAction)
    requires '/' !in containerDir
    ensures RecomputeHostPath(CreateMountConfig(containerDir, p, action), q) == CreateMountConfig(containerDir, q, action)
  {
    LastSegmentOfChild(CONTAINER_COMFYUI_PATH, containerDir);
  }

  /** Recomputing a preset for a new path gives the preset for that path, so the two post-install rules
      (recompute the list, or regenerate the preset) agree on an untouched preset. */
  lemma RecomputePreset(envType: EnvironmentType, p: string, q: string)
    requires envType != Auto
    ensures RecomputeHostPaths(DefaultMounts(envType, p).value, q) == DefaultMounts(envType, q).value
  {
    var bindings := PresetBindings(envType).value;
    var a := RecomputeHostPaths(CreateMountConfigs(bindings, p), q);
    var b := CreateMountConfigs(bindings, q);
    PresetBindingsDirs(envType);
    assert |a| == |b|;
    forall i | 0 <= i < |a| ensures a[i] == b[i] {
      assert bindings[i] in bindings;
      RecomputeCreated(bindings[i].0, p, q, bindings[i].1);
    }
  }

  /** The duplicate flow's `Auto` filter: keep the bindings of type `mount`. */
  function KeepMounts(ms: seq<MountEntry>): (r: seq<MountEntry>)
    ensures forall m :: m in r <==> m in ms && m.action == Mount
    ensures |r| <= |ms|
  {
    if ms == [] then []
    else if ms[0].action == Mount then [ms[0]] + KeepMounts(ms[1..])
    else KeepMounts(ms[1..])
  }

  /** Filtering a concatenation filters each part, so the kept bindings keep their order and every copy of
      a kept binding stays. */
  lemma {:induction false} KeepMountsAppend(xs: seq<MountEntry>, ys: seq<MountEntry>)
    ensures KeepMounts(xs + ys) == KeepMounts(xs) + KeepMounts(ys)
  {
    if xs == [] {
      assert xs + ys == ys;
    } else {
      assert (xs + ys)[0] == xs[0] && (xs + ys)[1..] == xs[1..] + ys;
      KeepMountsAppend(xs[1..], ys);
    }
  }

  /** Filtering a list that has only `mount` bindings gives it back, hence the filter is idempotent. */
  lemma {:induction false} KeepMountsIdempotent(ms: seq<MountEntry>)
    ensures KeepMounts(KeepMounts(ms)) == KeepMounts(ms)
  {
    if ms != [] {
      KeepMountsIdempotent(ms[1..]);
    }
  }

  /** The filter leaves a list as it is exactly when every binding in it is a `mount`. */
  lemma {:induction false} KeepMountsUnchanged(ms: seq<MountEntry>)
    ensures KeepMounts(ms) == ms <==> forall i :: 0 <= i < |ms| ==> ms[i].action == Mount
  {
    if KeepMounts(ms) == ms {
      forall i | 0 <= i < |ms| ensures ms[i].action == Mount {
        assert ms[i] in KeepMounts(ms);
      }
    }
    if forall i :: 0 <= i < |ms| ==> ms[i].action == Mount {
      KeepAllMounts(ms);
    }
  }

  lemma {:induction false} KeepAllMounts(ms: seq<MountEntry>)
    requires forall i :: 0 <= i < |ms| ==> ms[i].action == Mount
    ensures KeepMounts(ms) == ms
  {
    if ms != [] {
      assert forall i :: 0 <= i < |ms[1..]| ==> ms[1..][i] == ms[i + 1];
      KeepAllMounts(ms[1..]);
      assert [ms[0]] + ms[1..] == ms;
    }
  }

  /** The action a legacy value names, if it is exactly `"mount"` or `"copy"`. */
  function LegacyAction(v: LegacyValue): Option<MountAction> {
    match v
    case Text(s) => ParseMountAction(s)
    case NonText => None
  }

  /** The legacy branch of `parseExistingMountConfig` as a function: one binding per key whose value is
      `"mount"` or `"copy"`, in key order. */
  function LegacyMounts(entries: seq<(string, LegacyValue)>, comfyUIPath: string): seq<MountEntry> {
    if entries == [] then []
    else
      var head := match LegacyAction(entries[0].1)
                  case Some(a) => [CreateMountConfig(entries[0].0, comfyUIPath, a)]
                  case None => [];
      head + LegacyMounts(entries[1..], comfyUIPath)
  }

  /** Converting a concatenation of entries is the concatenation of the conversions: key order is kept. */
  lemma {:induction false} LegacyMountsAppend(xs: seq<(string, LegacyValue)>, ys: seq<(string, LegacyValue)>, p: string)
    ensures LegacyMounts(xs + ys, p) == LegacyMounts(xs, p) + LegacyMounts(ys, p)
  {
    if xs == [] {
      assert xs + ys == ys;
    } else {
      assert (xs + ys)[1..] == xs[1..] + ys;
      LegacyMountsAppend(xs[1..], ys, p);
    }
  }

  /** A binding comes out of a legacy config exactly when some key maps to `"mount"` or `"copy"` and the
      binding is the record `createMountConfig` builds for that key and action. */
  lemma {:induction false} LegacyMountsMembers(entries: seq<(string, LegacyValue)>, p: string)
    ensures forall m :: m in LegacyMounts(entries, p) <==>
      exists i :: 0 <= i < |entries| && LegacyAction(entries[i].1).Some?
        && m == CreateMountConfig(entries[i].0, p, LegacyAction(entries[i].1).value)
  {
    if entries != [] {
      LegacyMountsMembers(entries[1..], p);
      forall m ensures m in LegacyMounts(entries, p) <==>
        exists i :: 0 <= i < |entries| && LegacyAction(entries[i].1).Some?
          && m == CreateMountConfig(entries[i].0, p, LegacyAction(entries[i].1).value)
      {
        if m in LegacyMounts(entries[1..], p) {
          var j :| 0 <= j < |entries[1..]| && LegacyAction(entries[1..][j].1).Some?
            && m == CreateMountConfig(entries[1..][j].0, p, LegacyAction(entries[1..][j].1).value);
          assert entries[1..][j] == entries[j + 1];
        }
        if exists i :: (0 <= i < |entries| && LegacyAction(entries[i].1).Some?
          && m == CreateMountConfig(entries[i].0, p, LegacyAction(entries[i].1).value))
        {
          var i :| 0 <= i < |entries| && LegacyAction(entries[i].1).Some?
            && m == CreateMountConfig(entries[i].0, p, LegacyAction(entries[i].1).value);
          if i > 0 {
            assert entries[1..][i - 1] == entries[i];
          }
        }
      }
    }
  }

  /** `parseExistingMountConfig` as a function: `[]` for a falsy value, the `mounts` array as it is, or the
      legacy conversion. */
  function ExistingMounts(data: MountConfigData, comfyUIPath: string): seq<MountEntry> {
    match data
    case Falsy => []
    case WithMounts(ms) => ms
    case Entries(es) => LegacyMounts(es, comfyUIPath)
  }

  /** `parseExistingMountConfig`, with its `for` loop over the entries and its `push`. */
  method ParseExistingMountConfig(data: MountConfigData, comfyUIPath: string) returns (results: seq<MountEntry>)
    ensures results == ExistingMounts(data, comfyUIPath)
  {
    if data.Falsy? {
      return [];
    }
    if data.WithMounts? {
      return data.mounts;
    }
    var entries := data.entries;
    results := [];
    var i := 0;
    while i < |entries|
      invariant 0 <= i <= |entries|
      invariant results == LegacyMounts(entries[..i], comfyUIPath)
    {
      var (key, val) := entries[i];
      LegacyMountsAppend(entries[..i], [entries[i]], comfyUIPath);
      assert entries[..i + 1] == entries[..i] + [entries[i]];
      if val == Text("mount") || val == Text("copy") {
        results := results + [CreateMountConfig(key, comfyUIPath, if val == Text("mount") then Mount else Copy)];
      }
      i := i + 1;
    }
    assert entries[..i] == entries;
  }
}
