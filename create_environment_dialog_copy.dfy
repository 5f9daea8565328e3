/** The older create dialog of src/components/dialogs/CreateEnvironmentDialogCopy.tsx. It has its own form
    schema with a release field, builds the image name from the release when none is given, checks the
    image before the ComfyUI path, and after an install recomputes the host paths whatever the type. */
module CreateEnvironmentDialogCopy {
  import opened Wrappers
  import opened Strings
  import opened Paths
  import opened Environment
  import opened UserSettingsTypes
  import opened MountConfigUtils
  import opened ComfyUtils
  import opened ComfyUIReleases
  import opened EnvironmentForm
  import opened ComfyUIInstall
  import opened Backend
  import opened EnvironmentHooks

  /** The dialog's `formSchema` (lines 52-69) on typed values: the name and path rules of the shared schema,
      a non-empty release, a type of the enum without `Auto`, and a runtime of `"nvidia"` or `"none"`. The
      image is optional here. */
  predicate CopyFormValid(v: FormValues, release: string) {
    && NameValid(v.name) && |release| >= 1 && ComfyUIPathValid(v.comfyUIPath)
    && v.environmentType != Auto
    && (v.runtime == Some("nvidia") || v.runtime == Some("none"))
  }

  /** `String(userSettings?.runtime) || "nvidia"` (line 105). */
  function CopyRuntimeDefault(settings: Option<UserSettings>): (r: string)
    ensures SettingsRuntime(settings).None? ==> r == "undefined"
    ensures SettingsRuntime(settings) == Some("") ==> r == "nvidia"
    ensures SettingsRuntime(settings).Some? && SettingsRuntime(settings) != Some("") ==> r == SettingsRuntime(settings).value
  {
    var text := if SettingsRuntime(settings).Some? then SettingsRuntime(settings).value else "undefined";
    OrElse(Some(text), "nvidia")
  }

  /** The dialog's `defaultValues` (lines 92-107); the release default is `"latest"`. Without a stored
      runtime the runtime is `"undefined"`, which the dialog's own schema refuses, and the name is empty:
      the defaults never pass as they are. */
  function CopyFormDefaults(settings: Option<UserSettings>, envDefault: Option<string>): (v: FormValues)
    ensures v.comfyUIPath == OrElse(SettingsPath(settings), OrElse(envDefault, ""))
    ensures v.image == Some("") && v.environmentType == Default
    ensures v.mountConfig == DefaultMounts(Default, v.comfyUIPath).value
    ensures v.runtime == Some(CopyRuntimeDefault(settings))
    ensures SettingsRuntime(settings).None? ==> v.runtime == Some("undefined")
    ensures !CopyFormValid(v, "latest")
  {
    var path := OrElse(SettingsPath(settings), OrElse(envDefault, ""));
    FormValues(
      "",
      Some(""),
      path,
      Default,
      Some(OrElse(SettingsCommand(settings), "")),
      Some(OrElse(Some(PortString(settings)), "8188")),
      Some(CopyRuntimeDefault(settings)),
      DefaultMounts(Default, path).value)
  }

  /** The input `onSubmit` builds (lines 177-190) for the resolved release. */
  function CopyInput(values: FormValues, release: string): EnvironmentInput {
    EnvironmentInput(
      values.name,
      OrElse(values.image, COMFYUI_IMAGE_NAME + ":" + release),
      values.command,
      Some(values.comfyUIPath),
      Options(values.port, values.runtime, values.mountConfig, Some(release), None),
      None)
  }

  /** With no image in the form the image is the prebuilt one for the release, `akatzai/comfyui-env:<release>`;
      otherwise it is the form's. The release is recorded in the options either way, and it is the branch
      itself, `"latest"`, or one of the offered releases. */
  lemma CopyInputImage(values: FormValues, branch: string, releaseOptions: seq<string>)
    ensures var release := LatestReleaseFromBranch(branch, releaseOptions);
      && (OrElse(values.image, "") == "" ==> CopyInput(values, release).image == "akatzai/comfyui-env:" + release)
      && (OrElse(values.image, "") != "" ==> CopyInput(values, release).image == values.image.value)
      && CopyInput(values, release).options.comfyui_release == Some(release)
      && (release == branch || release == "latest" || release in releaseOptions)
  {
  }

  /** Where this dialog's `continueCreateEnvironment` goes: a throwing check ends the attempt. */
  datatype CopyNext = CheckThrew(error: Exception) | NeedsPull | NeedsInstall | ReadyToCreate

  /** Lines 233-247. The path is only checked once the image exists; the handler is reached exactly when
      both checks came back `true`. */
  function ImageFirstDecision(imageCheck: Outcome<bool>, pathCheck: Outcome<bool>): (r: CopyNext)
    ensures r == ReadyToCreate <==> imageCheck == Returned(true) && pathCheck == Returned(true)
    ensures r == NeedsPull <==> imageCheck == Returned(false)
    ensures r == NeedsInstall <==> imageCheck == Returned(true) && pathCheck == Returned(false)
    ensures r.CheckThrew? <==> imageCheck.Threw? || (imageCheck == Returned(true) && pathCheck.Threw?)
  {
    match imageCheck
    case Threw(e) => CheckThrew(e)
    case Returned(imageExists) =>
      if !imageExists then NeedsPull
      else match pathCheck
        case Threw(e) => CheckThrew(e)
        case Returned(validPath) => if !validPath then NeedsInstall else ReadyToCreate
  }

  /** On checks that do not throw, the two dialogs take the same decision except when both checks fail:
      the path-first hook asks to install, this dialog asks to pull. */
  lemma CheckOrdersDiffer(validPath: bool, imageExists: bool)
    ensures var pathFirst := CheckDecision(true, Returned(validPath), Returned(imageExists));
      var imageFirst := ImageFirstDecision(Returned(imageExists), Returned(validPath));
      && (pathFirst == Proceed <==> imageFirst == ReadyToCreate)
      && (validPath || imageExists ==>
            (pathFirst == AskInstall <==> imageFirst == NeedsInstall)
            && (pathFirst == AskPull <==> imageFirst == NeedsPull))
      && (!validPath && !imageExists ==> pathFirst == AskInstall && imageFirst == NeedsPull)
  {
  }

  /** The calls of this `continueCreateEnvironment`: the image check, the path check once the image exists,
      and the handler (with the input as it is, no folder) when both pass. */
  function CopyContinueCalls(env: EnvironmentInput, imageCheck: Outcome<bool>, pathCheck: Outcome<bool>): seq<Call> {
    [CheckImage(env.image)]
    + (if imageCheck == Returned(true) then [CheckPath(OrElse(env.comfyui_path, ""))] else [])
    + (if ImageFirstDecision(imageCheck, pathCheck) == ReadyToCreate then [CreateCall(env)] else [])
  }

  /** The error toast of a caught throw: `error.message`, absent for a thrown non-`Error`. */
  function ThrownToast(e: Exception): Toast {
    Toast(ErrorTitle, e.message)
  }

  /** The toast of this `continueCreateEnvironment`. */
  function CopyContinueToasts(imageCheck: Outcome<bool>, pathCheck: Outcome<bool>, create: Outcome<()>): seq<Toast> {
    match ImageFirstDecision(imageCheck, pathCheck)
    case CheckThrew(e) => [ThrownToast(e)]
    case ReadyToCreate =>
      if create.Returned? then [SuccessToast("Environment created successfully")] else [ThrownToast(create.error)]
    case _ => []
  }

  /** The dialog's `useState` fields, its form and its toasts and backend calls. */
  class ImageFirstDialog {
    var isCreateModalOpen: bool
    var isLoading: bool
    var installComfyUIDialog: bool
    var isInstallingComfyUILoading: bool
    var releaseOptions: seq<string>
    var pullImageDialog: bool
    var pendingEnvironment: Option<EnvironmentInput>
    var toasts: seq<Toast>
    var calls: seq<Call>
    const form: FormState
    const defaultValues: FormValues

    /** Between two handlers: a question dialog is only open over a pending input, never both at once, the
        install spinner is off, and the release options have `"latest"` first and only there. */
    ghost predicate Valid()
      reads this
    {
      && (installComfyUIDialog ==> pendingEnvironment.Some?)
      && (pullImageDialog ==> pendingEnvironment.Some?)
      && !(installComfyUIDialog && pullImageDialog)
      && !isInstallingComfyUILoading
      && Normalised(releaseOptions)
    }

    constructor(settings: Option<UserSettings>, envDefault: Option<string>)
      ensures Valid() && fresh(form)
      ensures defaultValues == CopyFormDefaults(settings, envDefault)
      ensures form.Values() == defaultValues && form.release == "latest" && releaseOptions == ["latest"]
      ensures !isCreateModalOpen && !isLoading && pendingEnvironment == None && toasts == [] && calls == []
    {
      defaultValues := CopyFormDefaults(settings, envDefault);
      form := new FormState(CopyFormDefaults(settings, envDefault), "latest");
      isCreateModalOpen := false;
      isLoading := false;
      installComfyUIDialog := false;
      isInstallingComfyUILoading := false;
      releaseOptions := ["latest"];
      pullImageDialog := false;
      pendingEnvironment := None;
      toasts := [];
      calls := [];
    }

    /** Where the dialog is left once `continueCreateEnvironment` has run on `env` and decided `next`: the
        question or the pull dialog opens for its decision with `env` still pending, and the form and the
        modal as they were (`before`, `modalBefore`); after a caught throw nothing is pending and the form and
        the modal are as they were; after creating nothing is pending, and a created environment closes the
        modal and resets the form while a throw of the handler leaves both. */
    ghost predicate Settled(next: CopyNext, create: Outcome<()>, env: EnvironmentInput, before: FormValues,
                            releaseBefore: string, modalBefore: bool)
      reads this, form
    {
      && (next == ReadyToCreate && create.Returned? ==> form.release == "latest")
      && (!(next == ReadyToCreate && create.Returned?) ==> form.release == releaseBefore)
      && installComfyUIDialog == (next == NeedsInstall) && pullImageDialog == (next == NeedsPull)
      && (next == NeedsInstall || next == NeedsPull ==>
            pendingEnvironment == Some(env) && form.Values() == before && isCreateModalOpen == modalBefore)
      && (next.CheckThrew? ==> pendingEnvironment == None && form.Values() == before && isCreateModalOpen == modalBefore)
      && (next == ReadyToCreate ==> pendingEnvironment == None)
      && (next == ReadyToCreate && create.Returned? ==> !isCreateModalOpen && form.Values() == defaultValues)
      && (next == ReadyToCreate && create.Threw? ==> isCreateModalOpen == modalBefore && form.Values() == before)
    }

    /** `finishCreateEnvironment(environment)` (lines 213-228). It catches nothing: a throw of the handler
        leaves the state as it was and comes back as `thrown`, for the caller to catch or not. */
    method FinishCreateEnvironment(env: Option<EnvironmentInput>, create: Outcome<()>) returns (thrown: Option<Exception>)
      modifies this, form
      ensures env.None? ==> thrown == None && unchanged(this) && unchanged(form)
      ensures env.Some? ==> calls == old(calls) + [CreateCall(env.value)]
      ensures env.Some? && create.Threw? ==>
        && thrown == Some(create.error) && toasts == old(toasts) && isLoading == old(isLoading)
        && pendingEnvironment == old(pendingEnvironment) && isCreateModalOpen == old(isCreateModalOpen)
        && form.Values() == old(form.Values()) && form.release == old(form.release)
      ensures env.Some? && create.Returned? ==>
        && thrown == None && toasts == old(toasts) + [SuccessToast("Environment created successfully")]
        && !isLoading && pendingEnvironment == None && !isCreateModalOpen
        && form.Values() == defaultValues && form.release == "latest"
      ensures installComfyUIDialog == old(installComfyUIDialog) && pullImageDialog == old(pullImageDialog)
      ensures isInstallingComfyUILoading == old(isInstallingComfyUILoading) && releaseOptions == old(releaseOptions)
    {
      thrown := None;
      if env.None? {
        return;
      }
      calls := calls + [CreateCall(env.value)];
      if create.Threw? {
        thrown := Some(create.error);
        return;
      }
      isCreateModalOpen := false;
      form.Reset(defaultValues);
      form.release := "latest";
      toasts := toasts + [SuccessToast("Environment created successfully")];
      isLoading := false;
      pendingEnvironment := None;
    }

    /** `continueCreateEnvironment(environment)` (lines 230-258). A throw of either check or of the handler
        is caught: an error toast, loading off, nothing pending. Every outcome ends with loading off. */
    method ContinueCreateEnvironment(env: Option<EnvironmentInput>, imageCheck: Outcome<bool>, pathCheck: Outcome<bool>,
                                     create: Outcome<()>)
      requires Valid() && !installComfyUIDialog && !pullImageDialog
      requires env.Some? ==> pendingEnvironment == env
      modifies this, form
      ensures Valid()
      ensures env.None? ==> unchanged(this) && unchanged(form)
      ensures env.Some? ==>
        var next := ImageFirstDecision(imageCheck, pathCheck);
        && calls == old(calls) + CopyContinueCalls(env.value, imageCheck, pathCheck)
        && toasts == old(toasts) + CopyContinueToasts(imageCheck, pathCheck, create)
        && !isLoading
        && Settled(next, create, env.value, old(form.Values()), old(form.release), old(isCreateModalOpen))
      ensures releaseOptions == old(releaseOptions)
    {
      if env.None? {
        return;
      }
      var input := env.value;
      ghost var callsBefore, toastsBefore := calls, toasts;
      ghost var next := ImageFirstDecision(imageCheck, pathCheck);
      calls := calls + [CheckImage(input.image)];
      match imageCheck {
        case Threw(e) =>
          assert next == CheckThrew(e) && CopyContinueCalls(input, imageCheck, pathCheck) == [CheckImage(input.image)];
          toasts := toasts + [ThrownToast(e)];
          isLoading := false;
          pendingEnvironment := None;
          return;
        case Returned(imageExists) =>
          if !imageExists {
            assert next == NeedsPull && CopyContinueCalls(input, imageCheck, pathCheck) == [CheckImage(input.image)];
            pullImageDialog := true;
            isLoading := false;
            return;
          }
      }
      calls := calls + [CheckPath(OrElse(input.comfyui_path, ""))];
      assert calls == callsBefore + [CheckImage(input.image), CheckPath(OrElse(input.comfyui_path, ""))];
      match pathCheck {
        case Threw(e) =>
          assert next == CheckThrew(e);
          assert CopyContinueCalls(input, imageCheck, pathCheck) == [CheckImage(input.image), CheckPath(OrElse(input.comfyui_path, ""))];
          toasts := toasts + [ThrownToast(e)];
          isLoading := false;
          pendingEnvironment := None;
          return;
        case Returned(validComfyUIPath) =>
          if !validComfyUIPath {
            assert next == NeedsInstall;
            assert CopyContinueCalls(input, imageCheck, pathCheck) == [CheckImage(input.image), CheckPath(OrElse(input.comfyui_path, ""))];
            installComfyUIDialog := true;
            isLoading := false;
            return;
          }
      }
      assert next == ReadyToCreate;
      assert CopyContinueCalls(input, imageCheck, pathCheck)
        == [CheckImage(input.image), CheckPath(OrElse(input.comfyui_path, "")), CreateCall(input)];
      var thrown := FinishCreateEnvironment(env, create);
      if thrown.Some? {
        toasts := toasts + [ThrownToast(thrown.value)];
        isLoading := false;
        pendingEnvironment := None;
      }
    }

    /** `onSubmit` (lines 175-211), reached only when the form passes the dialog's schema: the release is
        resolved against the options, the input is built, made pending and checked; loading is off at the
        end whatever happened. */
    method OnSubmit(imageCheck: Outcome<bool>, pathCheck: Outcome<bool>, create: Outcome<()>)
      requires Valid() && !installComfyUIDialog && !pullImageDialog
      modifies this, form
      ensures Valid()
      ensures !CopyFormValid(old(form.Values()), old(form.release)) ==> unchanged(this) && unchanged(form)
      ensures CopyFormValid(old(form.Values()), old(form.release)) ==>
        var env := CopyInput(old(form.Values()), LatestReleaseFromBranch(old(form.release), releaseOptions));
        var next := ImageFirstDecision(imageCheck, pathCheck);
        && calls == old(calls) + CopyContinueCalls(env, imageCheck, pathCheck)
        && toasts == old(toasts) + CopyContinueToasts(imageCheck, pathCheck, create)
        && !isLoading
        && Settled(next, create, env, old(form.Values()), old(form.release), old(isCreateModalOpen))
      ensures releaseOptions == old(releaseOptions)
    {
      var values := form.Values();
      if !CopyFormValid(values, form.release) {
        return;
      }
      var release := LatestReleaseFromBranch(form.release, releaseOptions);
      var newEnvironment := CopyInput(values, release);
      isLoading := true;
      pendingEnvironment := Some(newEnvironment);
      ContinueCreateEnvironment(Some(newEnvironment), imageCheck, pathCheck, create);
      isLoading := false;
    }

    /** `handleInstallComfyUI` (lines 290-354). The installer gets the form's path and the resolved release.
        If it throws, the question closes, nothing is pending, loading is off and an error toast follows.
        Otherwise a success toast, the path gets its ComfyUI suffix, every binding without `override` gets
        its host path recomputed for it (whatever the type), and the updated input is checked again from the
        start. */
    method HandleInstallComfyUI(install: Outcome<()>, imageCheck: Outcome<bool>, pathCheck: Outcome<bool>, create: Outcome<()>)
      requires Valid() && installComfyUIDialog
      modifies this, form
      ensures Valid() && !isLoading
      ensures install.Threw? ==>
        && calls == old(calls) + [InstallCall(old(form.comfyUIPath), LatestReleaseFromBranch(old(form.release), old(releaseOptions)))]
        && toasts == old(toasts) + [ThrownToast(install.error)]
        && !installComfyUIDialog && !pullImageDialog && pendingEnvironment == None
        && form.Values() == old(form.Values()) && form.release == old(form.release)
        && isCreateModalOpen == old(isCreateModalOpen)
      ensures install.Returned? ==>
        var installedPath := UpdateComfyUIPath(old(form.comfyUIPath));
        var mounts := RecomputeHostPaths(old(form.mountConfig), installedPath);
        var updated := InstalledInput(old(pendingEnvironment).value, installedPath, mounts);
        var next := ImageFirstDecision(imageCheck, pathCheck);
        && calls == old(calls) + [InstallCall(old(form.comfyUIPath), LatestReleaseFromBranch(old(form.release), old(releaseOptions)))]
                    + CopyContinueCalls(updated, imageCheck, pathCheck)
        && toasts == old(toasts) + [SuccessToast("ComfyUI installed successfully")]
                     + CopyContinueToasts(imageCheck, pathCheck, create)
        && Settled(next, create, updated, old(form.Values()).(comfyUIPath := installedPath, mountConfig := mounts), old(form.release),
                   old(isCreateModalOpen))
      ensures releaseOptions == old(releaseOptions)
    {
      var comfyUIPath := form.comfyUIPath;
      var branch := LatestReleaseFromBranch(form.release, releaseOptions);
      isInstallingComfyUILoading := true;
      calls := calls + [InstallCall(comfyUIPath, branch)];
      match install {
        case Threw(e) =>
          isInstallingComfyUILoading := false;
          installComfyUIDialog := false;
          pendingEnvironment := None;
          isLoading := false;
          toasts := toasts + [ThrownToast(e)];
        case Returned(_) =>
          RecheckInstalled(comfyUIPath, imageCheck, pathCheck, create);
      }
    }

    /** The rest of a successful install (lines 301-337): the question closes with a success toast, the path
        gets its ComfyUI suffix, every binding without `override` gets its host path recomputed for it, and
        the rewritten pending input goes through both checks again. */
    method RecheckInstalled(comfyUIPath: string, imageCheck: Outcome<bool>, pathCheck: Outcome<bool>, create: Outcome<()>)
      requires installComfyUIDialog && pendingEnvironment.Some? && !pullImageDialog && Normalised(releaseOptions)
      modifies this, form
      ensures Valid() && !isLoading
      ensures
        var installedPath := UpdateComfyUIPath(comfyUIPath);
        var mounts := RecomputeHostPaths(old(form.mountConfig), installedPath);
        var updated := InstalledInput(old(pendingEnvironment).value, installedPath, mounts);
        var next := ImageFirstDecision(imageCheck, pathCheck);
        && calls == old(calls) + CopyContinueCalls(updated, imageCheck, pathCheck)
        && toasts == old(toasts) + [SuccessToast("ComfyUI installed successfully")]
                     + CopyContinueToasts(imageCheck, pathCheck, create)
        && Settled(next, create, updated, old(form.Values()).(comfyUIPath := installedPath, mountConfig := mounts), old(form.release),
                   old(isCreateModalOpen))
      ensures releaseOptions == old(releaseOptions)
    {
      ghost var before := form.Values();
      installComfyUIDialog := false;
      isInstallingComfyUILoading := false;
      isLoading := true;
      toasts := toasts + [SuccessToast("ComfyUI installed successfully")];
      var updatedComfyUIPath := UpdateComfyUIPath(comfyUIPath);
      form.SetComfyUIPath(updatedComfyUIPath);
      var updatedMountConfig := RecomputeHostPaths(form.mountConfig, updatedComfyUIPath);
      form.SetMountConfig(updatedMountConfig);
      var updatedEnvironment := InstalledInput(pendingEnvironment.value, updatedComfyUIPath, updatedMountConfig);
      pendingEnvironment := Some(updatedEnvironment);
      assert form.Values() == before.(comfyUIPath := updatedComfyUIPath, mountConfig := updatedMountConfig);
      assert form.release == old(form.release) && isCreateModalOpen == old(isCreateModalOpen);
      assert calls == old(calls) && toasts == old(toasts) + [SuccessToast("ComfyUI installed successfully")];
      ContinueCreateEnvironment(Some(updatedEnvironment), imageCheck, pathCheck, create);
    }

    /** "No" (lines 367-371): the question closes and the pending input, unchanged and unchecked, goes to the
        handler. A throw of the handler is not caught (an unhandled rejection, returned here): the input then
        stays pending. */
    method DeclineInstall(create: Outcome<()>) returns (unhandled: Option<Exception>)
      requires Valid() && installComfyUIDialog
      modifies this, form
      ensures Valid() && !installComfyUIDialog && !pullImageDialog
      ensures calls == old(calls) + [CreateCall(old(pendingEnvironment).value)]
      ensures create.Threw? ==>
        unhandled == Some(create.error) && toasts == old(toasts) && pendingEnvironment == old(pendingEnvironment)
        && isLoading == old(isLoading) && isCreateModalOpen == old(isCreateModalOpen)
        && form.Values() == old(form.Values()) && form.release == old(form.release)
      ensures create.Returned? ==>
        unhandled == None && pendingEnvironment == None && !isLoading && !isCreateModalOpen
        && toasts == old(toasts) + [SuccessToast("Environment created successfully")]
        && form.Values() == defaultValues && form.release == "latest"
      ensures releaseOptions == old(releaseOptions)
    {
      installComfyUIDialog := false;
      unhandled := FinishCreateEnvironment(pendingEnvironment, create);
    }

    /** The pull dialog's `onOpenChange` (lines 379-385). */
    method PullOpenChange(open: bool)
      requires Valid() && pullImageDialog
      modifies this
      ensures Valid() && pullImageDialog == open
      ensures !open ==> pendingEnvironment == None && !isLoading
      ensures open ==> pendingEnvironment == old(pendingEnvironment) && isLoading == old(isLoading)
      ensures calls == old(calls) && toasts == old(toasts) && installComfyUIDialog == old(installComfyUIDialog)
      ensures isCreateModalOpen == old(isCreateModalOpen) && releaseOptions == old(releaseOptions)
    {
      pullImageDialog := open;
      if !open {
        pendingEnvironment := None;
        isLoading := false;
      }
    }

    /** The pull dialog's `onSuccess` (lines 386-390): unlike the path-first dialog, the pending input is
        checked again from the start. */
    method PullSuccess(imageCheck: Outcome<bool>, pathCheck: Outcome<bool>, create: Outcome<()>)
      requires Valid() && pullImageDialog
      modifies this, form
      ensures Valid() && !isLoading
      ensures calls == old(calls) + CopyContinueCalls(old(pendingEnvironment).value, imageCheck, pathCheck)
      ensures toasts == old(toasts) + CopyContinueToasts(imageCheck, pathCheck, create)
      ensures pullImageDialog <==> imageCheck == Returned(false)
      ensures Settled(ImageFirstDecision(imageCheck, pathCheck), create, old(pendingEnvironment).value,
                      old(form.Values()), old(form.release), old(isCreateModalOpen))
      ensures releaseOptions == old(releaseOptions)
    {
      pullImageDialog := false;
      isLoading := true;
      ContinueCreateEnvironment(pendingEnvironment, imageCheck, pathCheck, create);
    }

    /** The main dialog's `onOpenChange` (line 393) and the fetch effect (lines 146-159): ignored while the
        install question is open; opening the dialog fetches the tags, and a successful fetch replaces the
        options by `"latest"` followed by the other tags in order; a failed one leaves them. */
    method RequestOpenChange(open: bool, fetch: Outcome<seq<string>>)
      requires Valid()
      modifies this
      ensures Valid()
      ensures old(installComfyUIDialog) ==> unchanged(this)
      ensures !old(installComfyUIDialog) ==> isCreateModalOpen == open
      ensures !old(installComfyUIDialog) && open && !old(isCreateModalOpen) && fetch.Returned? ==>
        releaseOptions == NormaliseReleases(fetch.value)
      ensures !(open && !old(isCreateModalOpen) && fetch.Returned?) ==> releaseOptions == old(releaseOptions)
      ensures calls == old(calls) && toasts == old(toasts) && pendingEnvironment == old(pendingEnvironment)
      ensures isLoading == old(isLoading) && pullImageDialog == old(pullImageDialog)
      ensures installComfyUIDialog == old(installComfyUIDialog) && isInstallingComfyUILoading == old(isInstallingComfyUILoading)
    {
      if installComfyUIDialog {
        return;
      }
      var wasOpen := isCreateModalOpen;
      isCreateModalOpen := open;
      if open && !wasOpen {
        match fetch {
          case Returned(tags) =>
            NormaliseReleasesSpec(tags);
            releaseOptions := NormaliseReleases(tags);
          case Threw(_) =>
        }
      }
    }

    /** `handleEnvironmentTypeChange` (lines 260-271): the type and its preset for the form's path. The path
        effect that the type change re-triggers (lines 119-144) finds the preset already in place. */
    method HandleEnvironmentTypeChange(value: EnvironmentType)
      requires value != Auto
      modifies form
      ensures form.Values() == old(form.Values()).(environmentType := value,
                                                   mountConfig := DefaultMounts(value, old(form.comfyUIPath)).value)
      ensures form.release == old(form.release)
    {
      form.SetEnvironmentType(value);
      var comfyUIPath := form.comfyUIPath;
      var mountConfigs := DefaultMounts(value, comfyUIPath).value;
      form.SetMountConfig(mountConfigs);
      RecomputePreset(value, comfyUIPath, comfyUIPath);
      form.ChangeComfyUIPath(comfyUIPath);
    }

    /** `handleMountConfigChange` (lines 273-275): Custom. When the type was something else, the effect that
        the type change re-triggers recomputes every host path without `override` for the form's path. */
    method HandleMountConfigChange()
      modifies form
      ensures old(form.environmentType) != Custom ==>
        form.Values() == old(form.Values()).(environmentType := Custom,
                                             mountConfig := RecomputeHostPaths(old(form.mountConfig), old(form.comfyUIPath)))
      ensures old(form.environmentType) == Custom ==> form.Values() == old(form.Values())
      ensures form.release == old(form.release)
    {
      var wasCustom := form.environmentType == Custom;
      form.HandleMountConfigChange();
      if !wasCustom {
        form.ChangeComfyUIPath(form.comfyUIPath);
      }
    }

    /** Typing a ComfyUI path (line 460) and the debounced effect (lines 119-144). The dialog never holds
        `Auto`, so the effect always finds a list for a preset type. */
    method ChangeComfyUIPath(path: string)
      requires form.environmentType != Auto
      modifies form
      ensures form.Values() == old(form.Values()).(comfyUIPath := path,
                                                   mountConfig := PathChangeEffect(old(form.environmentType), old(form.mountConfig), path))
      ensures form.release == old(form.release)
    {
      form.ChangeComfyUIPath(path);
    }
  }
}
