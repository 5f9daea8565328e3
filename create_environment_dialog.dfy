/** The event wiring of src/components/dialogs/CreateEnvironmentDialog.tsx around the create hook: the
    install question's three answers, the pull dialog's close and success, the lock on the main dialog, the
    type options, and the image picker. */
module CreateEnvironmentDialog {
  import opened Wrappers
  import opened Strings
  import opened Environment
  import opened UserSettingsTypes
  import opened EnvironmentForm
  import opened Backend
  import opened EnvironmentHooks

  /** The enum's values without `Auto`, in declaration order (lines 99-106). */
  function WithoutAuto(types: seq<EnvironmentType>): (r: seq<EnvironmentType>)
    ensures forall t :: t in r <==> t in types && t != Auto
  {
    if types == [] then []
    else if types[0] == Auto then WithoutAuto(types[1..])
    else [types[0]] + WithoutAuto(types[1..])
  }

  /** The create dialog offers the six types other than `Auto`, in the enum's order. */
  lemma CreateTypeOptions()
    ensures WithoutAuto(AllEnvironmentTypes)
      == [Default, DefaultPlusWorkflows, DefaultPlusCustomNodes, DefaultPlusBoth, Isolated, Custom]
    ensures forall t :: t in WithoutAuto(AllEnvironmentTypes) <==> t != Auto
  {
    forall t ensures t in AllEnvironmentTypes {
      EnvironmentTypeRoundTrip(t);
    }
  }

  /** The rendered dialog: the create hook and the image selector's own `open` state. */
  class CreateDialog {
    const hook: EnvironmentCreation
    var dockerSelectorOpen: bool

    /** The hook made with `useFormDefaults(userSettings)`. */
    constructor(settings: Option<UserSettings>, envDefault: Option<string>, selectedFolder: Option<string>)
      ensures fresh(hook) && fresh(hook.form) && hook.Valid()
      ensures hook.defaultValues == FormDefaults(settings, envDefault) && hook.form.Values() == hook.defaultValues
      ensures !hook.isOpen && !hook.isLoading && !dockerSelectorOpen && hook.pendingEnvironment == None
    {
      hook := new EnvironmentCreation(FormDefaults(settings, envDefault), selectedFolder);
      dockerSelectorOpen := false;
    }

    /** "No" (lines 118-122): the question closes and loading ends; nothing is created, no backend call is made
        and the input stays pending. */
    method InstallCancel()
      requires hook.Valid() && hook.installComfyUIDialog
      modifies hook
      ensures hook.Valid() && !hook.installComfyUIDialog && !hook.isLoading
      ensures hook.pendingEnvironment == old(hook.pendingEnvironment) && hook.calls == old(hook.calls)
      ensures hook.toasts == old(hook.toasts) && hook.isOpen == old(hook.isOpen) && !hook.pullImageDialog
      ensures hook.isInstalling == old(hook.isInstalling) && hook.selectedFolder == old(hook.selectedFolder)
    {
      hook.installComfyUIDialog := false;
      hook.isLoading := false;
    }

    /** "Proceed without ComfyUI" (lines 123-128): the question closes and the pending input goes on with
        `installComfyUI = false`, so only the image is checked; loading ends whatever comes of it. */
    method ProceedWithoutComfyUI(imageCheck: Outcome<bool>, create: Outcome<()>)
      requires hook.Valid() && hook.installComfyUIDialog
      modifies hook, hook.form
      ensures hook.Valid() && !hook.installComfyUIDialog && !hook.isLoading
      ensures hook.calls == old(hook.calls)
        + ContinueCalls(old(hook.pendingEnvironment).value, false, Returned(false), imageCheck, hook.selectedFolder)
      ensures forall c :: c in hook.calls[|old(hook.calls)|..] ==> !c.CheckPath?
      ensures hook.toasts == old(hook.toasts) + ContinueToasts(false, Returned(false), imageCheck, create)
      ensures hook.pullImageDialog <==> imageCheck != Returned(true)
      ensures imageCheck != Returned(true) ==>
        && hook.pendingEnvironment == old(hook.pendingEnvironment) && hook.isOpen == old(hook.isOpen)
        && hook.form.Values() == old(hook.form.Values())
      ensures imageCheck == Returned(true) ==> hook.pendingEnvironment == None
      ensures imageCheck == Returned(true) && create.Returned? ==>
        !hook.isOpen && hook.form.Values() == hook.defaultValues
      ensures imageCheck == Returned(true) && create.Threw? ==>
        hook.isOpen == old(hook.isOpen) && hook.form.Values() == old(hook.form.Values())
      ensures hook.isInstalling == old(hook.isInstalling) && hook.selectedFolder == old(hook.selectedFolder)
    {
      hook.installComfyUIDialog := false;
      ContinueCallsGate(hook.pendingEnvironment.value, false, Returned(false), imageCheck, hook.selectedFolder);
      hook.ContinueCreateEnvironment(hook.pendingEnvironment, false, Returned(false), imageCheck, create);
      hook.isLoading := false;
    }

    /** The pull dialog's `onOpenChange` (lines 136-142): closing it without a pull drops the pending input and
        ends loading. */
    method PullOpenChange(open: bool)
      requires hook.Valid() && hook.pullImageDialog
      modifies hook
      ensures hook.Valid() && hook.pullImageDialog == open
      ensures !open ==> hook.pendingEnvironment == None && !hook.isLoading
      ensures open ==> hook.pendingEnvironment == old(hook.pendingEnvironment) && hook.isLoading == old(hook.isLoading)
      ensures hook.calls == old(hook.calls) && hook.toasts == old(hook.toasts)
      ensures hook.isOpen == old(hook.isOpen) && hook.installComfyUIDialog == old(hook.installComfyUIDialog)
      ensures hook.isInstalling == old(hook.isInstalling) && hook.selectedFolder == old(hook.selectedFolder)
    {
      hook.pullImageDialog := open;
      if !open {
        hook.pendingEnvironment := None;
        hook.isLoading := false;
      }
    }

    /** The pull dialog's `onSuccess` (lines 143-147): the pending input goes straight to the create handler
        (`handleInstallFinished` is `createEnvironment`), with neither check repeated. */
    method PullSuccess(create: Outcome<()>)
      requires hook.Valid() && hook.pullImageDialog
      modifies hook, hook.form
      ensures hook.Valid() && !hook.pullImageDialog && !hook.installComfyUIDialog
      ensures hook.calls == old(hook.calls) + [CreateCall(WithFolder(old(hook.pendingEnvironment).value, hook.selectedFolder))]
      ensures hook.toasts == old(hook.toasts) + [CreateToast(create)]
      ensures !hook.isLoading && hook.pendingEnvironment == None
      ensures create.Returned? ==> !hook.isOpen && hook.form.Values() == hook.defaultValues
      ensures create.Threw? ==> hook.isOpen == old(hook.isOpen) && hook.form.Values() == old(hook.form.Values())
      ensures hook.isInstalling == old(hook.isInstalling) && hook.selectedFolder == old(hook.selectedFolder)
    {
      hook.pullImageDialog := false;
      hook.isLoading := true;
      hook.CreateEnvironment(hook.pendingEnvironment, create);
    }

    /** The main dialog's `onOpenChange` (line 152) and the reset effect (lines 87-91): while the install
        question is open the dialog ignores the request; opening it resets the form to the defaults. */
    method RequestOpenChange(open: bool)
      modifies hook, hook.form
      ensures old(hook.installComfyUIDialog) ==> unchanged(hook) && unchanged(hook.form)
      ensures !old(hook.installComfyUIDialog) ==> hook.isOpen == open
      ensures !old(hook.installComfyUIDialog) && open && !old(hook.isOpen) ==> hook.form.Values() == hook.defaultValues
      ensures !(open && !old(hook.isOpen)) ==> hook.form.Values() == old(hook.form.Values())
      ensures hook.pendingEnvironment == old(hook.pendingEnvironment) && hook.calls == old(hook.calls)
      ensures hook.installComfyUIDialog == old(hook.installComfyUIDialog) && hook.pullImageDialog == old(hook.pullImageDialog)
      ensures hook.isLoading == old(hook.isLoading) && hook.toasts == old(hook.toasts)
      ensures hook.isInstalling == old(hook.isInstalling) && hook.selectedFolder == old(hook.selectedFolder)
    {
      if hook.installComfyUIDialog {
        return;
      }
      var wasOpen := hook.isOpen;
      hook.isOpen := open;
      if open && !wasOpen {
        hook.form.Reset(hook.defaultValues);
      }
    }

    /** Picking an image in the selector (`handleImageSelect`, lines 93-96, called by the selector's
        `handleSelectImage`, which then closes it): the form's image becomes that image. */
    method SelectImage(image: string)
      modifies this, hook.form
      ensures hook.form.Values() == old(hook.form.Values()).(image := Some(image)) && !dockerSelectorOpen
      ensures hook.form.release == old(hook.form.release)
    {
      hook.form.SetImage(image);
      dockerSelectorOpen := false;
    }
  }
}
