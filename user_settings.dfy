/** The settings form of src/components/dialogs/UserSettingsDialog.tsx: its validation schema, its default
    values, loading the stored settings when the dialog opens, and the submit handler. */
module UserSettingsDialog {
  import opened Wrappers
  import opened UserSettingsTypes

  /** The form's values as the inputs hold them: numbers are JavaScript numbers, and `form.reset(settings)`
      leaves a field absent when the stored settings lack it. */
  datatype SettingsValues = SettingsValues(
    comfyui_path: Option<string>,
    port: Option<real>,
    runtime: Option<string>,
    command: Option<string>,
    max_deleted_environments: Option<real>,
    folders: Option<seq<Folder>>)

  /** `z.number().int()` */
  predicate IsInteger(x: real) {
    x.Floor as real == x
  }

  /** `z.number().int().min(lo).max(hi)` */
  predicate IntegerIn(n: Option<real>, lo: int, hi: int) {
    n.Some? && IsInteger(n.value) && lo as real <= n.value <= hi as real
  }

  /** `z.string().min(1)` */
  predicate NonEmpty(s: Option<string>) {
    s.Some? && |s.value| >= 1
  }

  /** `formSchema` (lines 36-47); `command` and `folders` may be absent, and any folder record is accepted. */
  predicate SettingsValid(v: SettingsValues) {
    && NonEmpty(v.comfyui_path)
    && IntegerIn(v.port, 1024, 65535)
    && NonEmpty(v.runtime)
    && IntegerIn(v.max_deleted_environments, 1, 100)
  }

  /** The form's `defaultValues` (lines 64-71). */
  const DefaultValues := SettingsValues(Some(""), Some(8188.0), Some("nvidia"), Some(""), Some(10.0), Some([]))

  /** The default port and retention count are accepted, but the empty default path is not, so the form
      cannot be submitted before a path is entered or the stored settings are loaded. */
  lemma DefaultsSpec()
    ensures IntegerIn(DefaultValues.port, 1024, 65535)
    ensures IntegerIn(DefaultValues.max_deleted_environments, 1, 100)
    ensures NonEmpty(DefaultValues.runtime)
    ensures !SettingsValid(DefaultValues)
    ensures forall p :: |p| >= 1 ==> SettingsValid(DefaultValues.(comfyui_path := Some(p)))
  {
    assert (8188.0).Floor == 8188;
    assert (10.0).Floor == 10;
  }

  /** A whole-number port is accepted exactly when it is from 1024 to 65535, and a value half-way between two whole
      numbers is rejected. */
  lemma PortSpec(n: int)
    ensures IntegerIn(Some(n as real), 1024, 65535) <==> 1024 <= n <= 65535
    ensures !IntegerIn(Some(n as real + 0.5), 1024, 65535)
  {
    assert (n as real).Floor == n;
    assert (n as real + 0.5).Floor == n;
  }

  /** `form.reset(settings)` with stored settings. */
  function FromSettings(s: UserSettings): SettingsValues {
    SettingsValues(
      s.comfyui_path,
      if s.port.Some? then Some(s.port.value as real) else None,
      s.runtime,
      s.command,
      if s.max_deleted_environments.Some? then Some(s.max_deleted_environments.value as real) else None,
      s.folders)
  }

  /** The settings handed to `updateUserSettingsHandler`: the validated values, whose numbers are whole. */
  function SubmittedSettings(v: SettingsValues): UserSettings
    requires SettingsValid(v)
  {
    UserSettings(v.comfyui_path, Some(v.port.value.Floor), v.runtime, v.command, v.folders,
                 Some(v.max_deleted_environments.value.Floor))
  }

  /** Stored settings pass validation exactly when the path and runtime are present and non-empty and the
      port and retention count are present and in range; such settings submit back unchanged. */
  lemma LoadedSettingsRoundTrip(s: UserSettings)
    ensures SettingsValid(FromSettings(s)) <==>
      && s.comfyui_path.Some? && |s.comfyui_path.value| >= 1
      && s.port.Some? && 1024 <= s.port.value <= 65535
      && s.runtime.Some? && |s.runtime.value| >= 1
      && s.max_deleted_environments.Some? && 1 <= s.max_deleted_environments.value <= 100
    ensures SettingsValid(FromSettings(s)) ==> SubmittedSettings(FromSettings(s)) == s
  {
    if s.port.Some? {
      assert (s.port.value as real).Floor == s.port.value;
    }
    if s.max_deleted_environments.Some? {
      assert (s.max_deleted_environments.value as real).Floor == s.max_deleted_environments.value;
    }
  }

  /** The dialog: whether it is open and loading, the form's values, the toasts shown and the settings
      passed to `updateUserSettingsHandler`. */
  class SettingsDialog {
    var isOpen: bool
    var isLoading: bool
    var values: SettingsValues
    var toasts: seq<Toast>
    var updates: seq<UserSettings>

    constructor()
      ensures !isOpen && !isLoading && values == DefaultValues && toasts == [] && updates == []
    {
      isOpen := false;
      isLoading := false;
      values := DefaultValues;
      toasts := [];
      updates := [];
    }

    /** `onOpenChange` and the load effect (lines 73-93): opening the dialog fetches the stored settings
        (`load`) into the form, or shows an error toast and keeps the values when the fetch throws. */
    method OpenChange(open: bool, load: Outcome<UserSettings>)
      modifies this
      ensures isOpen == open && isLoading == old(isLoading) && updates == old(updates)
      ensures open && !old(isOpen) && load.Returned? ==> values == FromSettings(load.value) && toasts == old(toasts)
      ensures open && !old(isOpen) && load.Threw? ==>
        values == old(values) && toasts == old(toasts) + [ErrorToast("Failed to load user settings")]
      ensures !(open && !old(isOpen)) ==> values == old(values) && toasts == old(toasts)
    {
      var wasOpen := isOpen;
      isOpen := open;
      if open && !wasOpen {
        match load
        case Returned(settings) =>
          values := FromSettings(settings);
        case Threw(_) =>
          toasts := toasts + [ErrorToast("Failed to load user settings")];
      }
    }

    /** `form.handleSubmit(onSubmit)` (lines 95-116). Values that fail the schema never reach `onSubmit`.
        Otherwise the handler is called once with them (`update` is its outcome): on success the dialog closes
        with a success toast, on a throw it stays as it was with an error toast; loading ends either way. */
    method Submit(update: Outcome<()>)
      modifies this
      ensures !SettingsValid(old(values)) ==>
        isOpen == old(isOpen) && isLoading == old(isLoading) && toasts == old(toasts) && updates == old(updates)
      ensures SettingsValid(old(values)) ==> updates == old(updates) + [SubmittedSettings(old(values))] && !isLoading
      ensures SettingsValid(old(values)) && update.Returned? ==>
        !isOpen && toasts == old(toasts) + [SuccessToast("User settings updated successfully")]
      ensures SettingsValid(old(values)) && update.Threw? ==>
        isOpen == old(isOpen) && toasts == old(toasts) + [ErrorToast(MessageOr(update.error, "An unknown error occurred"))]
      ensures values == old(values)
    {
      if !SettingsValid(values) {
        return;
      }
      isLoading := true;
      updates := updates + [SubmittedSettings(values)];
      if update.Returned? {
        isOpen := false;
        toasts := toasts + [SuccessToast("User settings updated successfully")];
      } else {
        toasts := toasts + [ErrorToast(MessageOr(update.error, "An unknown error occurred"))];
      }
      isLoading := false;
    }
  }
}
