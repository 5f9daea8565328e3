/** The mount update of src/hooks/use-comfyui-install.ts that runs once ComfyUI has been installed. The
    handler around it (`handleInstallComfyUI`) shares its state with the creation hook and is modelled
    there, as `EnvironmentHooks.EnvironmentCreation.HandleInstallComfyUI`. */
module ComfyUIInstall {
  import opened Wrappers
  import opened Paths
  import opened Environment
  import opened MountConfigUtils
  import opened EnvironmentForm

  /** What `updateMountConfigs(path)` leaves in the form: the recomputed list in Custom mode, otherwise the
      preset for the new path, or `[]` when the type has no preset (`Auto`). */
  function InstallMounts(envType: EnvironmentType, mounts: seq<MountEntry>, comfyUIPath: string): seq<MountEntry> {
    var updatedMounts := RecomputeHostPaths(mounts, comfyUIPath);
    if envType == Custom then updatedMounts else DefaultMounts(envType, comfyUIPath).GetOr([])
  }

  /** In Custom mode the list keeps its length and order, overridden bindings are identical and only the
      others' host paths change, to the path derived from their container directory. Any other type gets
      its preset for the new path, and `Auto` the empty list. */
  lemma InstallMountsSpec(envType: EnvironmentType, mounts: seq<MountEntry>, comfyUIPath: string)
    ensures var r := InstallMounts(envType, mounts, comfyUIPath);
      envType == Custom ==>
        && |r| == |mounts|
        && (forall i :: 0 <= i < |mounts| && mounts[i].override ==> r[i] == mounts[i])
        && (forall i :: 0 <= i < |mounts| ==> r[i] == mounts[i].(host_path := r[i].host_path))
        && (forall i :: 0 <= i < |mounts| && !mounts[i].override ==>
              r[i].host_path == JoinPaths(comfyUIPath, LastSegment(mounts[i].container_path)))
    ensures envType == Auto ==> InstallMounts(envType, mounts, comfyUIPath) == []
    ensures envType != Custom && envType != Auto ==>
      InstallMounts(envType, mounts, comfyUIPath) == DefaultMounts(envType, comfyUIPath).value
  {
  }

  /** Setting the new path in the form re-triggers the form's path-change effect; on the list the update
      produced, that effect changes nothing. */
  lemma {:induction false} InstallThenEffectStable(envType: EnvironmentType, mounts: seq<MountEntry>, comfyUIPath: string)
    ensures var r := InstallMounts(envType, mounts, comfyUIPath);
      PathChangeEffect(envType, r, comfyUIPath) == r
  {
    if envType == Custom {
      RecomputeLastWins(mounts, comfyUIPath, comfyUIPath);
    }
  }

  /** The two post-install rules agree on a preset list: recomputing an untouched preset (what the image-first
      dialog does whatever the type) gives what this update gives. */
  lemma InstallAgreesWithRecompute(envType: EnvironmentType, p: string, q: string)
    requires envType != Auto
    ensures InstallMounts(envType, DefaultMounts(envType, p).value, q) == RecomputeHostPaths(DefaultMounts(envType, p).value, q)
  {
    RecomputePreset(envType, p, q);
  }

  /** `updateMountConfigs(comfyUIPath)` (lines 42-56): writes the final list into the form and returns that
      same list. */
  method UpdateMountConfigs(form: FormState, comfyUIPath: string) returns (finalMounts: seq<MountEntry>)
    modifies form
    ensures finalMounts == InstallMounts(old(form.environmentType), old(form.mountConfig), comfyUIPath)
    ensures form.Values() == old(form.Values()).(mountConfig := finalMounts) && form.release == old(form.release)
  {
    var currentType := form.environmentType;
    var updatedMounts := RecomputeHostPaths(form.mountConfig, comfyUIPath);
    var chosen := if currentType == Custom then Some(updatedMounts) else DefaultMounts(currentType, comfyUIPath);
    form.SetMountConfig(chosen.GetOr([]));
    finalMounts := chosen.GetOr([]);
  }
}
