/** The create and duplicate workflows of src/hooks/environment-hooks.ts: the form defaults of each, and the
    two hooks as classes over their `useState` fields. The create hook checks the ComfyUI path before the
    image; the install handler of src/hooks/use-comfyui-install.ts runs over the same state and is a method
    of the create hook here, with the finish callback the hook passes it (lines 67-85) inlined. */
module EnvironmentHooks {
  import opened Wrappers
  import opened Strings
  import opened Paths
  import opened Environment
  import opened UserSettingsTypes
  import opened MountConfigUtils
  import opened EnvironmentForm
  import opened ComfyUIInstall
  import opened Backend

  /** `String(userSettings?.port)`: the digits of the stored port, or `"undefined"` without one. Never empty,
      which is why the `|| "8188"` after it never applies. */
  function PortString(settings: Option<UserSettings>): (r: string)
    ensures |r| >= 1
  {
    if SettingsPort(settings).Some? then IntToString(SettingsPort(settings).value) else "undefined"
  }

  /** `useFormDefaults(userSettings)` (lines 24-38). `envDefault` is the build-time `VITE_DEFAULT_COMFYUI_PATH`. */
  function FormDefaults(settings: Option<UserSettings>, envDefault: Option<string>): (v: FormValues)
    ensures v.comfyUIPath == OrElse(SettingsPath(settings), OrElse(envDefault, ""))
    ensures v.port == Some(if SettingsPort(settings).None? then "undefined" else IntToString(SettingsPort(settings).value))
    ensures v.runtime == Some(OrElse(SettingsRuntime(settings), "nvidia")) && v.runtime != Some("")
    ensures v.environmentType == Default && v.mountConfig == DefaultMounts(Default, v.comfyUIPath).value
    ensures ContainerPaths(v.mountConfig) == ["/app/ComfyUI/models", "/app/ComfyUI/output", "/app/ComfyUI/input"]
    ensures !FormValuesValid(v)
  {
    var path := OrElse(SettingsPath(settings), OrElse(envDefault, ""));
    PresetLayout(Default, path);
    FormValues(
      "",
      None,
      path,
      Default,
      Some(OrElse(SettingsCommand(settings), "")),
      Some(OrElse(Some(PortString(settings)), "8188")),
      Some(OrElse(SettingsRuntime(settings), "nvidia")),
      DefaultMounts(Default, path).value)
  }

  /** `environment.options?.["mount_config"]` */
  function StoredMountConfig(environment: Environment): MountConfigData {
    if environment.options.Some? then environment.options.value.mount_config else Falsy
  }

  function StoredPort(environment: Environment): Option<string> {
    if environment.options.Some? then environment.options.value.port else None
  }

  function StoredRuntime(environment: Environment): Option<string> {
    if environment.options.Some? then environment.options.value.runtime else None
  }

  /** The source's mounts, parsed against the source's own ComfyUI path. */
  function SourceMounts(environment: Environment): seq<MountEntry> {
    ExistingMounts(StoredMountConfig(environment), OrElse(environment.comfyui_path, ""))
  }

  /** `useDuplicateFormDefaults(environment, userSettings)` (lines 213-234). The copy starts as `Auto` with
      every stored binding, copies included. Its image is the source's `base_image`, so a source without one
      leaves the image empty and the form cannot be submitted until an image is picked; and a source name
      longer than 123 UTF-16 code units makes the copy's name too long. */
  function DuplicateFormDefaults(environment: Environment, settings: Option<UserSettings>, envDefault: Option<string>): (v: FormValues)
    ensures v.name == environment.name + "-copy"
    ensures NameValid(v.name) <==> Utf16Length(environment.name) <= 123
    ensures v.environmentType == Auto && v.mountConfig == SourceMounts(environment)
    ensures v.image == Some(OrElse(environment.baseImage, ""))
    ensures OrElse(environment.baseImage, "") == "" ==> !FormValuesValid(v)
    ensures v.comfyUIPath == OrElse(environment.comfyui_path, OrElse(SettingsPath(settings), OrElse(envDefault, "")))
    ensures v.port == Some(OrElse(StoredPort(environment), "8188")) && v.port != Some("")
  {
    Utf16LengthAppend(environment.name, "-copy");
    FormValues(
      environment.name + "-copy",
      Some(OrElse(environment.baseImage, "")),
      OrElse(environment.comfyui_path, OrElse(SettingsPath(settings), OrElse(envDefault, ""))),
      Auto,
      Some(OrElse(environment.command, OrElse(SettingsCommand(settings), ""))),
      Some(OrElse(StoredPort(environment), "8188")),
      Some(OrElse(StoredRuntime(environment), "nvidia")),
      SourceMounts(environment))
  }

  /** The input `handleSubmit` builds from validated form values (lines 156-166). */
  function SubmitInput(values: FormValues): EnvironmentInput {
    EnvironmentInput(
      values.name,
      OrElse(values.image, ""),
      values.command,
      Some(values.comfyUIPath),
      Options(values.port, values.runtime, values.mountConfig, None, None),
      None)
  }

  /** A validated form is carried over whole: the image is the form's (never the `""` fallback), and the
      path, port, runtime and mounts are the form's. */
  lemma SubmitInputCarriesForm(values: FormValues)
    requires FormValuesValid(values)
    ensures var env := SubmitInput(values);
      && env.name == values.name && env.image == values.image.value && env.image != ""
      && env.comfyui_path == Some(values.comfyUIPath) && env.command == values.command
      && env.options.port == values.port && env.options.runtime == values.runtime
      && env.options.mounts == values.mountConfig && env.folderIds == None
  {
  }

  /** `env.folderIds = [selectedFolderRef.current || ""]` (lines 92, 257). */
  function WithFolder(env: EnvironmentInput, selectedFolder: Option<string>): EnvironmentInput {
    env.(folderIds := Some([OrElse(selectedFolder, "")]))
  }

  /** Where `continueCreateEnvironment` goes after the checks. */
  datatype Next = AskInstall | AskPull | Proceed

  /** Lines 118-141: a throwing path check counts as an invalid path, a throwing image check as a missing
      image. With `installComfyUI` an invalid path wins over a missing image. The create handler is reached
      exactly when both checks came back `true`, the path check only counting when it was asked for. */
  function CheckDecision(installComfyUI: bool, pathCheck: Outcome<bool>, imageCheck: Outcome<bool>): (r: Next)
    ensures r == Proceed <==> (installComfyUI ==> pathCheck == Returned(true)) && imageCheck == Returned(true)
    ensures r == AskInstall <==> installComfyUI && pathCheck != Returned(true)
    ensures r == AskPull <==> (installComfyUI ==> pathCheck == Returned(true)) && imageCheck != Returned(true)
  {
    var pathValid := installComfyUI && pathCheck == Returned(true);
    var imageExists := imageCheck == Returned(true);
    if installComfyUI && !pathValid then AskInstall
    else if !imageExists then AskPull
    else Proceed
  }

  /** The calls `continueCreateEnvironment(env, installComfyUI)` makes: the path check only when asked for,
      the image check always (also when the path alone already decides), the create handler when both pass. */
  function ContinueCalls(env: EnvironmentInput, installComfyUI: bool, pathCheck: Outcome<bool>, imageCheck: Outcome<bool>,
                         selectedFolder: Option<string>): seq<Call>
  {
    (if installComfyUI then [CheckPath(OrElse(env.comfyui_path, ""))] else [])
    + [CheckImage(env.image)]
    + (if CheckDecision(installComfyUI, pathCheck, imageCheck) == Proceed then [CreateCall(WithFolder(env, selectedFolder))] else [])
  }

  /** The create handler is called by `continueCreateEnvironment` only after both checks passed, and the
      path is never checked when `installComfyUI` is false. */
  lemma ContinueCallsGate(env: EnvironmentInput, installComfyUI: bool, pathCheck: Outcome<bool>, imageCheck: Outcome<bool>,
                          selectedFolder: Option<string>)
    ensures var cs := ContinueCalls(env, installComfyUI, pathCheck, imageCheck, selectedFolder);
      && (forall c :: c in cs && c.CreateCall? ==>
            (installComfyUI ==> pathCheck == Returned(true)) && imageCheck == Returned(true))
      && (!installComfyUI ==> forall c :: c in cs ==> !c.CheckPath?)
      && (forall c :: c in cs && c.CreateCall? ==>
            c.env == WithFolder(env, selectedFolder) && c.env.folderIds == Some([OrElse(selectedFolder, "")]))
  {
  }

  /** The toast of the create handler's outcome (lines 98-108). */
  function CreateToast(create: Outcome<()>): Toast {
    match create
    case Returned(_) => SuccessToast("Environment created successfully")
    case Threw(e) => ErrorToast(MessageOr(e, "Unknown error occurred"))
  }

  /** The toasts of `continueCreateEnvironment`: one for a throwing image check, then the create toast. */
  function ContinueToasts(installComfyUI: bool, pathCheck: Outcome<bool>, imageCheck: Outcome<bool>, create: Outcome<()>): seq<Toast> {
    (if imageCheck.Threw? then [ErrorToast(MessageOr(imageCheck.error, "Unknown error occurred"))] else [])
    + (if CheckDecision(installComfyUI, pathCheck, imageCheck) == Proceed then [CreateToast(create)] else [])
  }

  /** The pending input rewritten by the finish callback (lines 72-82): the installed path, top-level and in
      the options, and the final mount list. */
  function InstalledInput(pending: EnvironmentInput, installedPath: string, mounts: seq<MountEntry>): EnvironmentInput {
    pending.(comfyui_path := Some(installedPath),
             options := pending.options.(comfyui_path := Some(installedPath), mounts := mounts))
  }

  /** `useEnvironmentCreation` and the `useComfyUIInstall` state it owns. `selectedFolder` is the current value
      of `selectedFolderRef`. */
  class EnvironmentCreation {
    var isOpen: bool
    var isLoading: bool
    var pendingEnvironment: Option<EnvironmentInput>
    var pullImageDialog: bool
    var installComfyUIDialog: bool
    var isInstalling: bool
    var selectedFolder: Option<string>
    var toasts: seq<Toast>
    var calls: seq<Call>
    const form: FormState
    const defaultValues: FormValues

    /** Between two handlers: a question dialog is only open over a pending input, and never both at once. */
    ghost predicate Valid()
      reads this
    {
      && (installComfyUIDialog ==> pendingEnvironment.Some?)
      && (pullImageDialog ==> pendingEnvironment.Some?)
      && !(installComfyUIDialog && pullImageDialog)
    }

    constructor(defaultValues: FormValues, selectedFolder: Option<string>)
      ensures Valid() && fresh(form) && form.Values() == defaultValues && this.defaultValues == defaultValues
      ensures !isOpen && !isLoading && pendingEnvironment == None && !pullImageDialog && !installComfyUIDialog && !isInstalling
      ensures this.selectedFolder == selectedFolder && toasts == [] && calls == []
    {
      this.defaultValues := defaultValues;
      form := new FormState(defaultValues, "latest");
      isOpen := false;
      isLoading := false;
      pendingEnvironment := None;
      pullImageDialog := false;
      installComfyUIDialog := false;
      isInstalling := false;
      this.selectedFolder := selectedFolder;
      toasts := [];
      calls := [];
    }

    /** `createEnvironment(env)` (lines 88-113). Nothing happens without an input. Otherwise the handler is
        called with the selected folder set; on success the dialog closes and the form resets; either way a
        toast follows, loading ends and no input is pending any more. */
    method CreateEnvironment(env: Option<EnvironmentInput>, create: Outcome<()>)
      modifies this, form
      ensures env.None? ==> unchanged(this) && unchanged(form)
      ensures env.Some? ==>
        && calls == old(calls) + [CreateCall(WithFolder(env.value, selectedFolder))]
        && toasts == old(toasts) + [CreateToast(create)]
        && !isLoading && pendingEnvironment == None
        && (create.Returned? ==> !isOpen && form.Values() == defaultValues)
        && (create.Threw? ==> isOpen == old(isOpen) && form.Values() == old(form.Values()))
      ensures pullImageDialog == old(pullImageDialog) && installComfyUIDialog == old(installComfyUIDialog)
      ensures isInstalling == old(isInstalling) && selectedFolder == old(selectedFolder)
      ensures form.release == old(form.release)
    {
      if env.None? {
        return;
      }
      var withFolder := WithFolder(env.value, selectedFolder);
      calls := calls + [CreateCall(withFolder)];
      match create {
        case Returned(_) =>
          isOpen := false;
          form.Reset(defaultValues);
          toasts := toasts + [SuccessToast("Environment created successfully")];
        case Threw(e) =>
          toasts := toasts + [ErrorToast(MessageOr(e, "Unknown error occurred"))];
      }
      isLoading := false;
      pendingEnvironment := None;
    }

    /** `continueCreateEnvironment(env, installComfyUI)` (lines 115-149), with the results of the two checks
        and of the create handler as parameters. Every caller passes the input it has just made pending, with
        both question dialogs closed. */
    method ContinueCreateEnvironment(env: Option<EnvironmentInput>, installComfyUI: bool,
                                     pathCheck: Outcome<bool>, imageCheck: Outcome<bool>, create: Outcome<()>)
      requires Valid() && !installComfyUIDialog && !pullImageDialog
      requires env.Some? ==> pendingEnvironment == env
      modifies this, form
      ensures Valid()
      ensures env.None? ==> unchanged(this) && unchanged(form)
      ensures env.Some? ==>
        && calls == old(calls) + ContinueCalls(env.value, installComfyUI, pathCheck, imageCheck, selectedFolder)
        && toasts == old(toasts) + ContinueToasts(installComfyUI, pathCheck, imageCheck, create)
      ensures env.Some? && CheckDecision(installComfyUI, pathCheck, imageCheck) != Proceed ==>
        && isLoading == old(isLoading) && pendingEnvironment == env && isOpen == old(isOpen)
        && form.Values() == old(form.Values())
        && installComfyUIDialog == (CheckDecision(installComfyUI, pathCheck, imageCheck) == AskInstall)
        && pullImageDialog == (CheckDecision(installComfyUI, pathCheck, imageCheck) == AskPull)
      ensures env.Some? && CheckDecision(installComfyUI, pathCheck, imageCheck) == Proceed ==>
        && !installComfyUIDialog && !pullImageDialog && !isLoading && pendingEnvironment == None
        && (create.Returned? ==> !isOpen && form.Values() == defaultValues)
        && (create.Threw? ==> isOpen == old(isOpen) && form.Values() == old(form.Values()))
      ensures isInstalling == old(isInstalling) && selectedFolder == old(selectedFolder)
      ensures form.release == old(form.release)
    {
      if env.None? {
        return;
      }
      var input := env.value;
      var imageExists := false;
      var pathValid := false;
      if installComfyUI {
        calls := calls + [CheckPath(OrElse(input.comfyui_path, ""))];
        match pathCheck {
          case Returned(valid) => pathValid := valid;
          case Threw(_) =>
        }
      }
      calls := calls + [CheckImage(input.image)];
      match imageCheck {
        case Returned(exists_) => imageExists := exists_;
        case Threw(e) => toasts := toasts + [ErrorToast(MessageOr(e, "Unknown error occurred"))];
      }
      ghost var next := CheckDecision(installComfyUI, pathCheck, imageCheck);
      ghost var checks := (if installComfyUI then [CheckPath(OrElse(input.comfyui_path, ""))] else []) + [CheckImage(input.image)];
      assert calls == old(calls) + checks;
      assert toasts == old(toasts) + (if imageCheck.Threw? then [ErrorToast(MessageOr(imageCheck.error, "Unknown error occurred"))] else []);
      if installComfyUI && !pathValid {
        assert next == AskInstall && ContinueCalls(input, installComfyUI, pathCheck, imageCheck, selectedFolder) == checks;
        installComfyUIDialog := true;
        return;
      }
      if !imageExists {
        assert next == AskPull && ContinueCalls(input, installComfyUI, pathCheck, imageCheck, selectedFolder) == checks;
        pullImageDialog := true;
        return;
      }
      assert next == Proceed;
      CreateEnvironment(env, create);
    }

    /** `handleSubmit` (lines 151-179), reached only when the form passes `baseFormSchema`: loading starts,
        and the input built from the form becomes pending and goes through both checks. */
    method HandleSubmit(pathCheck: Outcome<bool>, imageCheck: Outcome<bool>, create: Outcome<()>)
      requires Valid() && !installComfyUIDialog && !pullImageDialog
      modifies this, form
      ensures Valid()
      ensures !FormValuesValid(old(form.Values())) ==> unchanged(this) && unchanged(form)
      ensures FormValuesValid(old(form.Values())) ==>
        var env := SubmitInput(old(form.Values()));
        var next := CheckDecision(true, pathCheck, imageCheck);
        && calls == old(calls) + ContinueCalls(env, true, pathCheck, imageCheck, selectedFolder)
        && toasts == old(toasts) + ContinueToasts(true, pathCheck, imageCheck, create)
        && (next != Proceed ==>
              && isLoading && pendingEnvironment == Some(env) && isOpen == old(isOpen)
              && form.Values() == old(form.Values())
              && installComfyUIDialog == (next == AskInstall) && pullImageDialog == (next == AskPull))
        && (next == Proceed ==>
              && !isLoading && pendingEnvironment == None && !installComfyUIDialog && !pullImageDialog
              && (create.Returned? ==> !isOpen && form.Values() == defaultValues)
              && (create.Threw? ==> isOpen == old(isOpen) && form.Values() == old(form.Values())))
      ensures isInstalling == old(isInstalling) && form.release == old(form.release)
      ensures selectedFolder == old(selectedFolder)
    {
      var values := form.Values();
      if !FormValuesValid(values) {
        return;
      }
      isLoading := true;
      var newEnvironment := SubmitInput(values);
      pendingEnvironment := Some(newEnvironment);
      ContinueCreateEnvironment(Some(newEnvironment), true, pathCheck, imageCheck, create);
    }

    /** `handleInstallComfyUI(branch)` of use-comfyui-install.ts (lines 17-40), offered by the install
        dialog. The installer gets the form's path and the branch. If it throws, an error toast follows and
        the dialog, the pending input and the form stay as they were. Otherwise the path gets its ComfyUI
        suffix, the mounts are updated for it, the dialog closes, and the finish callback makes the updated
        input pending and runs both checks on it again; the success toast comes last. `isInstalling` is
        false afterwards either way. */
    method HandleInstallComfyUI(branch: string, install: Outcome<()>,
                                pathCheck: Outcome<bool>, imageCheck: Outcome<bool>, create: Outcome<()>)
      requires Valid() && installComfyUIDialog
      modifies this, form
      ensures Valid() && !isInstalling
      ensures install.Threw? ==>
        && calls == old(calls) + [InstallCall(old(form.comfyUIPath), branch)]
        && toasts == old(toasts) + [ErrorToast(MessageOr(install.error, "An unknown error occurred"))]
        && installComfyUIDialog && !pullImageDialog && pendingEnvironment == old(pendingEnvironment)
        && isLoading == old(isLoading) && isOpen == old(isOpen) && form.Values() == old(form.Values())
      ensures install.Returned? ==>
        var installedPath := UpdateComfyUIPath(old(form.comfyUIPath));
        var mounts := InstallMounts(old(form.environmentType), old(form.mountConfig), installedPath);
        var updated := InstalledInput(old(pendingEnvironment).value, installedPath, mounts);
        var next := CheckDecision(true, pathCheck, imageCheck);
        && calls == old(calls) + [InstallCall(old(form.comfyUIPath), branch)]
                    + ContinueCalls(updated, true, pathCheck, imageCheck, selectedFolder)
        && toasts == old(toasts) + ContinueToasts(true, pathCheck, imageCheck, create)
                     + [SuccessToast("ComfyUI installed successfully")]
        && (next != Proceed ==>
              && pendingEnvironment == Some(updated) && isLoading == old(isLoading) && isOpen == old(isOpen)
              && form.Values() == old(form.Values()).(comfyUIPath := installedPath, mountConfig := mounts)
              && installComfyUIDialog == (next == AskInstall) && pullImageDialog == (next == AskPull))
        && (next == Proceed ==> pendingEnvironment == None && !isLoading && !installComfyUIDialog && !pullImageDialog)
        && (next == Proceed && create.Returned? ==> !isOpen && form.Values() == defaultValues)
        && (next == Proceed && create.Threw? ==>
              isOpen == old(isOpen)
              && form.Values() == old(form.Values()).(comfyUIPath := installedPath, mountConfig := mounts))
      ensures selectedFolder == old(selectedFolder) && form.release == old(form.release)
    {
      var comfyUIPath := form.comfyUIPath;
      isInstalling := true;
      calls := calls + [InstallCall(comfyUIPath, branch)];
      match install {
        case Threw(e) =>
          toasts := toasts + [ErrorToast(MessageOr(e, "An unknown error occurred"))];
        case Returned(_) =>
          var updatedPath := UpdateComfyUIPath(comfyUIPath);
          form.SetComfyUIPath(updatedPath);
          var finalMounts := UpdateMountConfigs(form, updatedPath);
          installComfyUIDialog := false;
          InstallFinished(updatedPath, finalMounts, pathCheck, imageCheck, create);
          toasts := toasts + [SuccessToast("ComfyUI installed successfully")];
      }
      isInstalling := false;
    }

    /** The finish callback handed to the installer (environment-hooks.ts lines 67-85): the form takes the
        installed path and the updated mounts, the pending input is rebuilt from them, and both checks run again
        on it with `installComfyUI = true`. */
    method InstallFinished(path: string, mounts: seq<MountEntry>,
                           pathCheck: Outcome<bool>, imageCheck: Outcome<bool>, create: Outcome<()>)
      requires Valid() && pendingEnvironment.Some? && !installComfyUIDialog && !pullImageDialog
      modifies this, form
      ensures Valid()
      ensures
        var updated := InstalledInput(old(pendingEnvironment).value, path, mounts);
        var next := CheckDecision(true, pathCheck, imageCheck);
        && calls == old(calls) + ContinueCalls(updated, true, pathCheck, imageCheck, selectedFolder)
        && toasts == old(toasts) + ContinueToasts(true, pathCheck, imageCheck, create)
        && (next != Proceed ==>
              && pendingEnvironment == Some(updated) && isLoading == old(isLoading) && isOpen == old(isOpen)
              && form.Values() == old(form.Values()).(comfyUIPath := path, mountConfig := mounts)
              && installComfyUIDialog == (next == AskInstall) && pullImageDialog == (next == AskPull))
        && (next == Proceed ==> pendingEnvironment == None && !isLoading && !installComfyUIDialog && !pullImageDialog)
        && (next == Proceed && create.Returned? ==> !isOpen && form.Values() == defaultValues)
        && (next == Proceed && create.Threw? ==>
              isOpen == old(isOpen) && form.Values() == old(form.Values()).(comfyUIPath := path, mountConfig := mounts))
      ensures isInstalling == old(isInstalling) && selectedFolder == old(selectedFolder)
      ensures form.release == old(form.release)
    {
      var pending := pendingEnvironment.value;
      form.SetComfyUIPath(path);
      form.SetMountConfig(mounts);
      var updatedEnvironment := InstalledInput(pending, path, mounts);
      pendingEnvironment := Some(updatedEnvironment);
      ContinueCreateEnvironment(Some(updatedEnvironment), true, pathCheck, imageCheck, create);
    }

    /** `handleEnvironmentTypeChange` (lines 181-186): the type, then its preset for the form's path. The
        create dialog does not offer `Auto`, the one type without a preset. */
    method HandleEnvironmentTypeChange(newType: EnvironmentType)
      requires newType != Auto
      modifies form
      ensures form.Values() == old(form.Values()).(environmentType := newType,
                                                   mountConfig := DefaultMounts(newType, old(form.comfyUIPath)).value)
      ensures form.release == old(form.release)
    {
      form.SetEnvironmentType(newType);
      var comfyUIPath := form.comfyUIPath;
      var standardConfig := DefaultMounts(newType, comfyUIPath);
      form.SetMountConfig(standardConfig.value);
    }
  }

  /** What the duplicate type change puts in the form (lines 307-330): for `Auto` the source's `mount`
      bindings, for `Custom` all of the source's bindings, otherwise the preset for the form's path. */
  function DuplicateTypeMounts(newType: EnvironmentType, environment: Environment, comfyUIPath: string): seq<MountEntry> {
    if newType == Auto then KeepMounts(SourceMounts(environment))
    else if newType == Custom then SourceMounts(environment)
    else DefaultMounts(newType, comfyUIPath).GetOr([])
  }

  /** The source's bindings under `Auto` are exactly its `mount` bindings; the copy's defaults, also `Auto`,
      hold the same list exactly when the source has no `copy` binding. */
  lemma DuplicateAutoMounts(environment: Environment, settings: Option<UserSettings>, envDefault: Option<string>, comfyUIPath: string)
    ensures forall m :: m in DuplicateTypeMounts(Auto, environment, comfyUIPath) <==>
      m in SourceMounts(environment) && m.action == Mount
    ensures DuplicateTypeMounts(Auto, environment, comfyUIPath) == DuplicateFormDefaults(environment, settings, envDefault).mountConfig
      <==> forall i :: 0 <= i < |SourceMounts(environment)| ==> SourceMounts(environment)[i].action == Mount
  {
    KeepMountsUnchanged(SourceMounts(environment));
  }

  /** The input the duplicate submit builds (lines 284-294): the form's values, with the source's image. */
  function DuplicateInput(values: FormValues, image: string): EnvironmentInput {
    SubmitInput(values).(image := image)
  }

  /** Whatever image the form holds, the duplicate carries the source's. */
  lemma DuplicateIgnoresFormImage(values: FormValues, formImage: Option<string>, image: string)
    ensures DuplicateInput(values.(image := formImage), image) == DuplicateInput(values, image)
    ensures DuplicateInput(values, image).image == image
    ensures DuplicateInput(values, image).options.mounts == values.mountConfig
  {
  }

  /** `useEnvironmentDuplication` (lines 236-339). `isOpen` is the parent dialog's state, which the hook
      closes through `setIsOpen`. */
  class EnvironmentDuplication {
    var isOpen: bool
    var isLoading: bool
    var selectedFolder: Option<string>
    var toasts: seq<Toast>
    var calls: seq<Call>
    const form: FormState
    const defaultValues: FormValues
    const environment: Environment

    constructor(defaultValues: FormValues, environment: Environment, selectedFolder: Option<string>, isOpen: bool)
      ensures fresh(form) && form.Values() == defaultValues && this.defaultValues == defaultValues
      ensures this.environment == environment && this.selectedFolder == selectedFolder
      ensures this.isOpen == isOpen && !isLoading && toasts == [] && calls == []
    {
      this.defaultValues := defaultValues;
      this.environment := environment;
      form := new FormState(defaultValues, "latest");
      this.isOpen := isOpen;
      isLoading := false;
      this.selectedFolder := selectedFolder;
      toasts := [];
      calls := [];
    }

    /** `createEnvironment(env)` (lines 252-277): the duplicate handler gets the source's id (or `""`) and
        the input with the selected folder set; on success the dialog closes and the form resets; a toast
        follows and loading ends. */
    method CreateEnvironment(env: Option<EnvironmentInput>, duplicate: Outcome<()>)
      modifies this, form
      ensures env.None? ==> unchanged(this) && unchanged(form)
      ensures env.Some? ==>
        && calls == old(calls) + [DuplicateCall(OrElse(environment.id, ""), WithFolder(env.value, selectedFolder))]
        && !isLoading
        && (duplicate.Returned? ==>
              !isOpen && form.Values() == defaultValues
              && toasts == old(toasts) + [SuccessToast("Environment duplicated successfully")])
        && (duplicate.Threw? ==>
              isOpen == old(isOpen) && form.Values() == old(form.Values())
              && toasts == old(toasts) + [ErrorToast(MessageOr(duplicate.error, "Duplication failed"))])
      ensures selectedFolder == old(selectedFolder) && form.release == old(form.release)
    {
      if env.None? {
        return;
      }
      var withFolder := WithFolder(env.value, selectedFolder);
      calls := calls + [DuplicateCall(OrElse(environment.id, ""), withFolder)];
      match duplicate {
        case Returned(_) =>
          isOpen := false;
          form.Reset(defaultValues);
          toasts := toasts + [SuccessToast("Environment duplicated successfully")];
        case Threw(e) =>
          toasts := toasts + [ErrorToast(MessageOr(e, "Duplication failed"))];
      }
      isLoading := false;
    }

    /** `handleSubmit` (lines 279-305), reached only when the form passes `baseFormSchema`: neither the path
        nor the image is checked, and the handler gets the source's image. */
    method HandleSubmit(duplicate: Outcome<()>)
      modifies this, form
      ensures !FormValuesValid(old(form.Values())) ==> unchanged(this) && unchanged(form)
      ensures FormValuesValid(old(form.Values())) ==>
        && calls == old(calls) + [DuplicateCall(OrElse(environment.id, ""),
                                                WithFolder(DuplicateInput(old(form.Values()), environment.image), selectedFolder))]
        && !isLoading
        && (duplicate.Returned? ==>
              !isOpen && form.Values() == defaultValues
              && toasts == old(toasts) + [SuccessToast("Environment duplicated successfully")])
        && (duplicate.Threw? ==>
              isOpen == old(isOpen) && form.Values() == old(form.Values())
              && toasts == old(toasts) + [ErrorToast(MessageOr(duplicate.error, "Duplication failed"))])
      ensures form.release == old(form.release) && selectedFolder == old(selectedFolder)
    {
      var values := form.Values();
      if !FormValuesValid(values) {
        return;
      }
      isLoading := true;
      var newEnvironment := DuplicateInput(values, environment.image);
      CreateEnvironment(Some(newEnvironment), duplicate);
    }

    /** `handleEnvironmentTypeChange` (lines 307-330). */
    method HandleEnvironmentTypeChange(newType: EnvironmentType)
      modifies form
      ensures form.Values() == old(form.Values()).(environmentType := newType,
                                                   mountConfig := DuplicateTypeMounts(newType, environment, old(form.comfyUIPath)))
      ensures form.release == old(form.release)
    {
      form.SetEnvironmentType(newType);
      var comfyUIPath := form.comfyUIPath;
      var existingMounts := ParseExistingMountConfig(StoredMountConfig(environment), OrElse(environment.comfyui_path, ""));
      if newType == Auto {
        form.SetMountConfig(KeepMounts(existingMounts));
        return;
      }
      if newType == Custom {
        form.SetMountConfig(existingMounts);
        return;
      }
      var standardConfig := DefaultMounts(newType, comfyUIPath);
      form.SetMountConfig(standardConfig.value);
    }
  }
}
