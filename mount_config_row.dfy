/** The per-row handlers of src/components/form/MountConfigRow.tsx. Each writes fields of one row of the form's
    mount list in place and, except on one early return, marks the environment as Custom. */
module MountConfigRow {
  import opened Wrappers
  import opened Strings
  import opened Paths
  import opened Environment
  import opened MountConfigUtils
  import opened EnvironmentForm

  /** The five container paths the row's select offers (lines 120-134). */
  const ContainerPathOptions: seq<string> := [
    CONTAINER_COMFYUI_PATH + "/models",
    CONTAINER_COMFYUI_PATH + "/output",
    CONTAINER_COMFYUI_PATH + "/input",
    CONTAINER_COMFYUI_PATH + "/user",
    CONTAINER_COMFYUI_PATH + "/custom_nodes"]

  /** Each option is the container path `createMountConfig` builds for one preset directory: it lives under
      the container's ComfyUI directory and names that directory as its last segment. */
  lemma ContainerPathOptionsShape()
    ensures |ContainerPathOptions| == |PresetDirs|
    ensures forall k :: 0 <= k < |PresetDirs| ==>
      && ContainerPathOptions[k] == CONTAINER_COMFYUI_PATH + "/" + PresetDirs[k]
      && StartsWith(ContainerPathOptions[k], CONTAINER_COMFYUI_PATH + "/")
      && LastSegment(ContainerPathOptions[k]) == PresetDirs[k]
  {
    forall k | 0 <= k < |PresetDirs|
      ensures StartsWith(CONTAINER_COMFYUI_PATH + "/" + PresetDirs[k], CONTAINER_COMFYUI_PATH + "/")
        && LastSegment(CONTAINER_COMFYUI_PATH + "/" + PresetDirs[k]) == PresetDirs[k]
    {
      CreateMountConfigShape(PresetDirs[k], "", Mount);
    }
  }

  /** Every binding of every preset can be selected in a row. */
  lemma PresetPathsAreOptions(envType: EnvironmentType, comfyUIPath: string)
    requires envType != Auto
    ensures forall m :: m in DefaultMounts(envType, comfyUIPath).value ==> m.container_path in ContainerPathOptions
  {
    var bindings := PresetBindings(envType).value;
    var ms := CreateMountConfigs(bindings, comfyUIPath);
    assert DefaultMounts(envType, comfyUIPath).value == ms;
    PresetBindingsDirs(envType);
    ContainerPathOptionsShape();
    forall m | m in ms ensures m.container_path in ContainerPathOptions {
      var i :| 0 <= i < |ms| && ms[i] == m;
      var d := bindings[i].0;
      assert bindings[i] in bindings;
      assert d in PresetDirs;
      var k :| 0 <= k < |PresetDirs| && PresetDirs[k] == d;
      assert m.container_path == CONTAINER_COMFYUI_PATH + "/" + d;
      assert m.container_path == ContainerPathOptions[k];
    }
  }

  /** `handleContainerPathChange` (lines 37-46): sets the container path; without `override` the host path
      follows it; then Custom. The row comes out as a list recomputation would leave it. */
  method HandleContainerPathChange(form: FormState, index: nat, value: string)
    requires index < |form.mountConfig|
    modifies form
    ensures var row := old(form.mountConfig[index]).(container_path := value);
      form.mountConfig == old(form.mountConfig)[index := RecomputeHostPath(row, form.comfyUIPath)]
    ensures !old(form.mountConfig[index].override) ==>
      form.mountConfig[index].host_path == JoinPaths(form.comfyUIPath, LastSegment(value))
    ensures old(form.mountConfig[index].override) ==>
      form.mountConfig[index].host_path == old(form.mountConfig[index].host_path)
    ensures form.Values() == old(form.Values()).(mountConfig := form.mountConfig, environmentType := Custom)
    ensures form.release == old(form.release)
  {
    var row := form.mountConfig[index].(container_path := value);
    if !row.override {
      var containerDir := LastSegment(value);
      var newHostPath := JoinPaths(form.comfyUIPath, containerDir);
      row := row.(host_path := newHostPath);
    }
    form.SetMountConfig(form.mountConfig[index := row]);
    form.HandleMountConfigChange();
  }

  /** The override switch (lines 59-75). Turning it on only flips the flag. Turning it off with a container
      path resets the host path to the derived one. Either way the type becomes Custom, except when it is
      turned off on a row without a container path: the early return leaves the host path and the type
      as they were. */
  method HandleOverrideChange(form: FormState, index: nat, checked: bool)
    requires index < |form.mountConfig|
    modifies form
    ensures var row := old(form.mountConfig[index]).(override := checked);
      form.mountConfig == old(form.mountConfig)[index := if checked || row.container_path == "" then row
                                                        else RecomputeHostPath(row, form.comfyUIPath)]
    ensures !checked && old(form.mountConfig[index].container_path) == "" ==>
      form.environmentType == old(form.environmentType)
    ensures checked || old(form.mountConfig[index].container_path) != "" ==> form.environmentType == Custom
    ensures form.Values() == old(form.Values()).(mountConfig := form.mountConfig, environmentType := form.environmentType)
    ensures form.release == old(form.release)
  {
    var row := form.mountConfig[index].(override := checked);
    form.SetMountConfig(form.mountConfig[index := row]);
    if !checked {
      var containerPath := row.container_path;
      if containerPath == "" {
        return;
      }
      var containerDir := LastSegment(containerPath);
      var newHostPath := JoinPaths(form.comfyUIPath, containerDir);
      form.SetMountConfig(form.mountConfig[index := row.(host_path := newHostPath)]);
    }
    form.HandleMountConfigChange();
  }

  /** Typing a host path (lines 90-97). The input is disabled without `override`, so such a row never
      receives the edit; with `override` the host path becomes the typed text and the type Custom. */
  method HandleHostPathChange(form: FormState, index: nat, value: string)
    requires index < |form.mountConfig|
    modifies form
    ensures old(form.mountConfig[index].override) ==>
      form.Values() == old(form.Values()).(mountConfig := old(form.mountConfig)[index := old(form.mountConfig[index]).(host_path := value)],
                                           environmentType := Custom)
    ensures !old(form.mountConfig[index].override) ==> form.Values() == old(form.Values())
    ensures form.release == old(form.release)
  {
    if form.mountConfig[index].override {
      form.SetMountConfig(form.mountConfig[index := form.mountConfig[index].(host_path := value)]);
      form.HandleMountConfigChange();
    }
  }

  /** The row's type select (lines 157-161): the new action, then Custom. */
  method HandleTypeChange(form: FormState, index: nat, action: MountAction)
    requires index < |form.mountConfig|
    modifies form
    ensures form.Values() == old(form.Values()).(mountConfig := old(form.mountConfig)[index := old(form.mountConfig[index]).(action := action)],
                                                 environmentType := Custom)
    ensures form.release == old(form.release)
  {
    form.SetMountConfig(form.mountConfig[index := form.mountConfig[index].(action := action)]);
    form.HandleMountConfigChange();
  }

  /** The remove button (lines 181-184): exactly the row at `index` goes, then Custom. */
  method HandleRemove(form: FormState, index: nat)
    requires index < |form.mountConfig|
    modifies form
    ensures form.mountConfig == old(form.mountConfig[..index] + form.mountConfig[index + 1..])
    ensures |form.mountConfig| == |old(form.mountConfig)| - 1
    ensures forall i :: 0 <= i < |form.mountConfig| ==>
      form.mountConfig[i] == old(form.mountConfig)[if i < index then i else i + 1]
    ensures form.Values() == old(form.Values()).(mountConfig := form.mountConfig, environmentType := Custom)
    ensures form.release == old(form.release)
  {
    form.SetMountConfig(form.mountConfig[..index] + form.mountConfig[index + 1..]);
    form.HandleMountConfigChange();
  }
}
