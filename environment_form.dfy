/** The environment form of src/components/form/EnvironmentForm.tsx: the react-hook-form state every
    dialog edits, the debounced effect that follows a change of the ComfyUI path, the handler that marks
    a hand-edited mount list as Custom, and the Add Directory button. */
module EnvironmentForm {
  import opened Wrappers
  import opened Paths
  import opened Environment
  import opened MountConfigUtils

  /** What the path-change effect makes of the mount list: in Custom mode the host paths of bindings without
      `override` are recomputed; for any other type the list is replaced by that type's preset, and left
      as it is when the type has none (`Auto`, in the duplicate flow). */
  function PathChangeEffect(envType: EnvironmentType, mounts: seq<MountEntry>, comfyUIPath: string): seq<MountEntry> {
    if envType == Custom then RecomputeHostPaths(mounts, comfyUIPath)
    else match DefaultMounts(envType, comfyUIPath)
      case Some(preset) => preset
      case None => mounts
  }

  /** Only the latest path counts: running the effect for one path and then another is running it for the
      second alone. This is why the debounce, which drops intermediate paths, cannot change the outcome. */
  lemma PathChangeLastWins(envType: EnvironmentType, mounts: seq<MountEntry>, p: string, q: string)
    ensures PathChangeEffect(envType, PathChangeEffect(envType, mounts, p), q) == PathChangeEffect(envType, mounts, q)
  {
    if envType == Custom {
      RecomputeLastWins(mounts, p, q);
    }
  }

  /** The effect keeps the list's length in Custom mode, keeps overridden bindings there, and otherwise
      produces the preset, except for `Auto`, where the list stays as it is. */
  lemma PathChangeEffectSpec(envType: EnvironmentType, mounts: seq<MountEntry>, comfyUIPath: string)
    ensures envType == Custom ==>
      && |PathChangeEffect(envType, mounts, comfyUIPath)| == |mounts|
      && forall i :: 0 <= i < |mounts| && mounts[i].override ==> PathChangeEffect(envType, mounts, comfyUIPath)[i] == mounts[i]
    ensures envType == Auto ==> PathChangeEffect(envType, mounts, comfyUIPath) == mounts
    ensures envType != Custom && envType != Auto ==>
      PathChangeEffect(envType, mounts, comfyUIPath) == DefaultMounts(envType, comfyUIPath).value
  {
  }

  /** The form's values, one field per form field. `release` belongs to the image-first dialog's schema
      and is ignored by the others. */
  class FormState {
    var name: string
    var image: Option<string>
    var comfyUIPath: string
    var environmentType: EnvironmentType
    var command: Option<string>
    var port: Option<string>
    var runtime: Option<string>
    var mountConfig: seq<MountEntry>
    var release: string

    /** `useForm({ defaultValues })` */
    constructor(defaults: FormValues, release: string)
      ensures Values() == defaults && this.release == release
    {
      name := defaults.name;
      image := defaults.image;
      comfyUIPath := defaults.comfyUIPath;
      environmentType := defaults.environmentType;
      command := defaults.command;
      port := defaults.port;
      runtime := defaults.runtime;
      mountConfig := defaults.mountConfig;
      this.release := release;
    }

    /** `form.getValues()` */
    function Values(): FormValues
      reads this
    {
      FormValues(name, image, comfyUIPath, environmentType, command, port, runtime, mountConfig)
    }

    /** `form.reset(values)` */
    method Reset(values: FormValues)
      modifies this
      ensures Values() == values && release == old(release)
    {
      name := values.name;
      image := values.image;
      comfyUIPath := values.comfyUIPath;
      environmentType := values.environmentType;
      command := values.command;
      port := values.port;
      runtime := values.runtime;
      mountConfig := values.mountConfig;
    }

    /** `form.setValue("image", image)` */
    method SetImage(image: string)
      modifies this
      ensures Values() == old(Values()).(image := Some(image)) && release == old(release)
    {
      this.image := Some(image);
    }

    /** `form.setValue("comfyUIPath", path)` on its own, without the effect that follows it. */
    method SetComfyUIPath(path: string)
      modifies this
      ensures Values() == old(Values()).(comfyUIPath := path) && release == old(release)
    {
      comfyUIPath := path;
    }

    /** `form.setValue("mountConfig", mounts)` */
    method SetMountConfig(mounts: seq<MountEntry>)
      modifies this
      ensures Values() == old(Values()).(mountConfig := mounts) && release == old(release)
    {
      mountConfig := mounts;
    }

    /** `form.setValue("environmentType", envType)` */
    method SetEnvironmentType(envType: EnvironmentType)
      modifies this
      ensures Values() == old(Values()).(environmentType := envType) && release == old(release)
    {
      environmentType := envType;
    }

    /** The user edits the ComfyUI path, then the debounced effect (lines 68-98) runs against that path. */
    method ChangeComfyUIPath(path: string)
      modifies this
      ensures comfyUIPath == path
      ensures mountConfig == PathChangeEffect(old(environmentType), old(mountConfig), path)
      ensures Values() == old(Values()).(comfyUIPath := path, mountConfig := mountConfig) && release == old(release)
    {
      comfyUIPath := path;
      var currentEnvType := environmentType;
      if currentEnvType == Custom {
        var updated := RecomputeHostPaths(mountConfig, comfyUIPath);
        mountConfig := updated;
      } else {
        var newMountConfig := DefaultMounts(currentEnvType, comfyUIPath);
        if newMountConfig.Some? {
          mountConfig := newMountConfig.value;
        }
      }
    }

    /** `handleMountConfigChange`: any hand edit marks the environment as Custom; the mounts are not touched. */
    method HandleMountConfigChange()
      modifies this
      ensures Values() == old(Values()).(environmentType := Custom) && release == old(release)
    {
      environmentType := Custom;
    }

    /** Add Directory (lines 232-241): one empty, writable, non-overridden `mount` row at the end, then
        Custom. */
    method AddDirectory()
      modifies this
      ensures mountConfig == old(mountConfig) + [MountEntry("", "", Mount, false, false)]
      ensures Values() == old(Values()).(mountConfig := mountConfig, environmentType := Custom) && release == old(release)
    {
      mountConfig := mountConfig + [MountEntry("", "", Mount, false, false)];
      HandleMountConfigChange();
    }
  }
}
