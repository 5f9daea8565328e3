# ComfyDock frontend: the environment workflow core in Dafny

This project models the logic behind ComfyDock's "create environment" and "duplicate environment"
dialogs and proves properties of it. ComfyDock manages ComfyUI installations in Docker containers. The
model covers:

- the environment data model and its zod form schema (`Environment.ts`);
- the mount policy (`MountConfigUtils.ts`): `joinPaths`, `createMountConfig`, the per-type presets and
  the normaliser for stored mount configs;
- the environment form (`EnvironmentForm.tsx`), its mount rows (`MountConfigRow.tsx`) and the host-path
  recomputation that follows a change of the ComfyUI path;
- the two create workflows:
  - the path-first hook `useEnvironmentCreation`, with `useComfyUIInstall` and the dialog wiring of
    `CreateEnvironmentDialog.tsx`;
  - the image-first `CreateEnvironmentDialogCopy.tsx`, which also builds the image name from a release tag;
- the duplicate workflow (`useDuplicateFormDefaults`, `useEnvironmentDuplication`);
- the release list and its page-lifetime cache (`use-comfyui-releases.ts`, `ComfyUtils.ts`);
- the image selector's parsing, filtering and installed-first ordering (`DockerImageSelector.tsx`);
- the user settings dialog's schema and submit handler (`UserSettingsDialog.tsx`).

The modules follow the source files, as the module map below shows, with three exceptions: `Paths` gathers
the path rules of two files (`joinPaths` of `MountConfigUtils.ts` and `updateComfyUIPath` of
`CreateEnvironmentDialogCopy.tsx`), `Strings` and `Sorting` hold the JavaScript built-ins the core relies on,
and `EnvironmentHooks` also holds `handleInstallComfyUI` of `use-comfyui-install.ts`. Pure computations (schema checks, presets, path rules, tag parsing,
sorting) are functions with lemmas. Components and hooks that hold `useState` fields are classes whose
methods are the event handlers.

Backend calls go through `@/api/environmentApi`, which is not part of this model. Each one becomes an
`Outcome<T>` parameter: `Returned(v)` or `Threw(e)`. Those calls are:

- `checkValidComfyUIPath` and `checkImageExists`;
- `tryInstallComfyUI`;
- `getComfyUIImageTags` and `getUserSettings`;
- the create, duplicate and settings handlers.

Every call a handler makes is appended to a `calls` log and every toast to a `toasts` log. The contracts
can therefore say which collaborator was reached and with what. Each handler runs as one atomic step.

Module map:

- `wrappers.dfy`: `Option`, `Outcome`, `Exception`, toasts.
- `strings.dfy`: JavaScript string operations: `split`, `replace` (first occurrence), `includes`,
  `toLowerCase`, `||` on strings, `String(n)`.
- `paths.dfy`: `joinPaths`, the last-segment rule and `updateComfyUIPath`.
- `environment.dfy`: the types and schema of `Environment.ts`.
- `mount_config.dfy`: `MountConfigUtils.ts`.
- `environment_form.dfy`: `EnvironmentForm.tsx` (the form state is the class `FormState`).
- `mount_config_row.dfy`: `MountConfigRow.tsx`.
- `comfy_utils.dfy` and `releases.dfy`: `ComfyUtils.ts` and `use-comfyui-releases.ts`.
- `comfyui_install.dfy`: `updateMountConfigs` of `use-comfyui-install.ts`.
- `backend.dfy`: the log of collaborator calls.
- `user_settings_types.dfy`: `UserSettings.ts`.
- `environment_hooks.dfy`: `environment-hooks.ts`. `handleInstallComfyUI` lives here, because it runs over
  the create hook's state.
- `create_environment_dialog.dfy` and `create_environment_dialog_copy.dfy`: the two create dialogs.
- `sorting.dfy`: a stable insertion sort standing in for `Array.prototype.sort`.
- `image_selector.dfy`: `DockerImageSelector.tsx`.
- `user_settings.dfy`: `UserSettingsDialog.tsx`.

Two places where the model follows the code rather than the intent its comments suggest:

- The create form's default port is `String(userSettings?.port) || "8188"`. Without a stored port that
  is the string `"undefined"`, so the `"8188"` fallback never applies. The model keeps `"undefined"`.
- `getDefaultMountConfigsForEnvType` has no `Auto` case, so `Auto` yields no preset. The model returns
  `None` there and each caller handles it as the source does: `|| []`, or leaving the list as it is.

## Model

| member | source | states |
|---|---|---|
| Strings.JoinSplit | src/components/DockerImageSelector.tsx:51-52 | joining the fields of `split` with the separator gives back the string |
| Strings.RemoveFirstCuts | src/components/DockerImageSelector.tsx:59-61 | `replace` with a string pattern leaves a string without the pattern unchanged, and otherwise cuts out exactly its first occurrence |
| ComfyUtils.WithoutLatest | src/components/utils/ComfyUtils.ts:6 | the filtered list holds exactly the releases other than `"latest"` |
| ComfyUtils.WithoutLatestIdempotent | src/components/utils/ComfyUtils.ts:6 | filtering twice is filtering once |
| ComfyUtils.LatestReleaseFromBranch | src/components/utils/ComfyUtils.ts:4-10 | a branch other than `"latest"` is returned as it is; `"latest"` with no other release stays `"latest"`; the result is the branch, `"latest"` or an offered release |
| ComfyUtils.FirstOtherRelease | src/components/utils/ComfyUtils.ts:5-7 | for `"latest"` the result is the first release that is not `"latest"`, and an empty first candidate falls back to `"latest"` |
| ComfyUtils.ResolveStable | src/components/utils/ComfyUtils.ts:4-10 | resolving an already resolved branch gives it back |
| Environment.ParseEnvironmentType | src/types/Environment.ts:7-15 | an accepted string is the value of the type it denotes |
| Environment.EnvironmentTypeRoundTrip | src/types/Environment.ts:7-15 | every type's string value is accepted and denotes that type; the seven types are all listed |
| Environment.ParseMountAction | src/types/Environment.ts:30-33 | only `"mount"` and `"copy"` are accepted, each as itself |
| Environment.ParseMount | src/types/Environment.ts:35-41 | a mount is accepted iff its type is `"mount"` or `"copy"`; paths carry over and missing `read_only`/`override` become `false` |
| Environment.ParseMounts | src/types/Environment.ts:68 | a list is accepted iff every mount is, and then element by element |
| Environment.ParseForm | src/types/Environment.ts:50-69 | the form is accepted iff the name has 1 to 128 UTF-16 code units (as zod counts `.max(128)`), the path is non-empty, the image is non-null and non-empty, the type is one of the seven and every mount parses; accepted values carry every field over |
| Environment.NameBoundary | src/types/Environment.ts:51 | a name of 128 code units is accepted despite the message; 0 or more than 128 are refused; on text within the Basic Multilingual Plane that is 128 characters, while a run of characters from outside it is accepted exactly up to 64 characters |
| Strings.Utf16LengthAppend | src/types/Environment.ts:51 | JavaScript's `length` (UTF-16 code units) adds up over a concatenation |
| Paths.CollapseSlashesSpec | src/components/utils/MountConfigUtils.ts:13 | collapsing leaves no `//`, drops only slashes, keeps the first character and keeps a slash iff there was one |
| Paths.CollapseSlashesIdempotent | src/components/utils/MountConfigUtils.ts:13 | collapsing twice is collapsing once |
| Paths.JoinPathsWindows | src/components/utils/MountConfigUtils.ts:4-17 | with a `\` in the base path the joined path holds no `/` |
| Paths.JoinPathsPosix | src/components/utils/MountConfigUtils.ts:4-17 | without a `\` in the base path the result is the collapsed `base/sub`: no `//`, and no character but `/` is dropped |
| Paths.JoinChild | src/components/utils/MountConfigUtils.ts:4-17 | joining a child without `/` onto a path with `\` and no `/`, or onto a path with no `\`, no `//` and no trailing `/`, only adds the separator: `base + sep + child` |
| Paths.CollapseDouble | src/components/utils/MountConfigUtils.ts:13 | a doubled `/` anywhere collapses exactly like a single one |
| Paths.JoinPathsPosixExample | src/components/utils/MountConfigUtils.ts:4-17 | example, one input: `joinPaths("/a/b", "c")` is `/a/b/c` |
| Paths.JoinPathsWindowsExample | src/components/utils/MountConfigUtils.ts:4-17 | example, one input: `joinPaths("C:\a\b", "c")` is `C:\a\b\c` |
| Paths.JoinPathsCollapseExample | src/components/utils/MountConfigUtils.ts:4-17 | example, one input: `joinPaths("/a//b/", "c")` is `/a/b/c` |
| Paths.LastSegment | src/components/form/EnvironmentForm.tsx:77 | the directory taken from a container path holds no `/` |
| Paths.LastSegmentOfChild | src/components/form/EnvironmentForm.tsx:77 | the last segment of `prefix/dir` is `dir` |
| Paths.LastSegmentSuffix | src/components/form/EnvironmentForm.tsx:77 | the last segment is a suffix of the path that is all of it or follows a `/` |
| Paths.UpdateComfyUIPathIsJoin | src/components/dialogs/CreateEnvironmentDialogCopy.tsx:277-288 | on a Windows path or a clean POSIX path the suffix rule equals `joinPaths(path, "ComfyUI")` |
| Paths.UpdateComfyUIPathMixed | src/components/dialogs/CreateEnvironmentDialogCopy.tsx:277-288 | on a path with both separators the suffix rule writes `/` where `joinPaths` writes `\` |
| MountConfigUtils.CreateMountConfigShape | src/components/utils/MountConfigUtils.ts:76-87 | a record lives under `/app/ComfyUI/`, names its directory as last segment, takes its host path from it, is writable and not overridden, and recomputing it against the same path changes nothing |
| MountConfigUtils.PresetLayout | src/components/utils/MountConfigUtils.ts:132-172 | only `Auto` has no preset; Isolated and Custom are empty; the four Default variants list exactly their container paths in order |
| MountConfigUtils.PresetBindingsDirs | src/components/utils/MountConfigUtils.ts:136-171 | every preset binding names one of five directories, and only custom_nodes is copied |
| MountConfigUtils.PresetEntries | src/components/utils/MountConfigUtils.ts:132-172 | every preset record lives under the container's ComfyUI directory, only custom_nodes is a copy, none is read-only or overridden, and each carries its derived host path |
| MountConfigUtils.RecomputeHostPaths | src/components/form/EnvironmentForm.tsx:75-84 | recomputation keeps length and order, leaves overridden rows identical and changes only the other rows' host paths, to the path derived from their container directory |
| MountConfigUtils.RecomputeLastWins | src/components/form/EnvironmentForm.tsx:75-84 | recomputing for one path and then another is recomputing for the second |
| MountConfigUtils.RecomputeCreated | src/components/utils/MountConfigUtils.ts:76-87 | recomputing a created record for a new path gives the record for that path |
| MountConfigUtils.RecomputePreset | src/components/utils/MountConfigUtils.ts:132-172 | recomputing a preset for a new path gives the preset for that path |
| MountConfigUtils.KeepMounts | src/hooks/environment-hooks.ts:315 | the `Auto` filter keeps exactly the `mount` bindings |
| MountConfigUtils.KeepMountsAppend | src/hooks/environment-hooks.ts:315 | the filter distributes over concatenation, so the kept bindings keep their order and their copies |
| MountConfigUtils.KeepMountsIdempotent | src/hooks/environment-hooks.ts:315 | filtering twice is filtering once |
| MountConfigUtils.KeepMountsUnchanged | src/hooks/environment-hooks.ts:315 | the filter leaves a list as it is iff every binding is a `mount` |
| MountConfigUtils.LegacyMountsAppend | src/components/utils/MountConfigUtils.ts:112-121 | the legacy conversion keeps key order |
| MountConfigUtils.LegacyMountsMembers | src/components/utils/MountConfigUtils.ts:108-123 | a binding comes out iff some key maps to `"mount"` or `"copy"` and the binding is the one `createMountConfig` builds for it |
| MountConfigUtils.ParseExistingMountConfig | src/components/utils/MountConfigUtils.ts:95-124 | the loop returns `[]` for a falsy value, the `mounts` array as it is, or the legacy conversion in key order |
| EnvironmentForm.PathChangeLastWins | src/components/form/EnvironmentForm.tsx:68-98 | running the path effect for one path and then another is running it for the second, so the debounce cannot change the outcome |
| EnvironmentForm.PathChangeEffectSpec | src/components/form/EnvironmentForm.tsx:68-98 | Custom keeps the length and the overridden rows; another type gets its preset; `Auto` leaves the list |
| EnvironmentForm.FormState.ChangeComfyUIPath | src/components/form/EnvironmentForm.tsx:62-98 | the path is set and the mount list becomes the path effect's result; nothing else changes |
| EnvironmentForm.FormState.HandleMountConfigChange | src/components/form/EnvironmentForm.tsx:57-60 | the type becomes Custom and nothing else changes |
| EnvironmentForm.FormState.AddDirectory | src/components/form/EnvironmentForm.tsx:232-241 | one empty writable non-overridden `mount` row is appended and the type becomes Custom |
| MountConfigRow.ContainerPathOptionsShape | src/components/form/MountConfigRow.tsx:120-134 | each of the five options is the container path `createMountConfig` builds for one preset directory |
| MountConfigRow.PresetPathsAreOptions | src/components/form/MountConfigRow.tsx:120-134 | every preset binding's container path is one of the options |
| MountConfigRow.HandleContainerPathChange | src/components/form/MountConfigRow.tsx:37-46 | the row gets the new container path and, without override, the host path derived from it; then Custom |
| MountConfigRow.HandleOverrideChange | src/components/form/MountConfigRow.tsx:59-75 | turning override off with a container path resets the derived host path; turning it off without one returns early and leaves the type; otherwise Custom |
| MountConfigRow.HandleHostPathChange | src/components/form/MountConfigRow.tsx:90-97 | only an overridden row takes the typed host path, and then the type becomes Custom |
| MountConfigRow.HandleTypeChange | src/components/form/MountConfigRow.tsx:157-161 | the row's action changes, then Custom |
| MountConfigRow.HandleRemove | src/components/form/MountConfigRow.tsx:181-184 | exactly the row at the index is removed, the others keep their order, then Custom |
| ComfyUIReleases.NormaliseReleasesSpec | src/hooks/use-comfyui-releases.ts:27-29 | the list starts with `"latest"`, holds it exactly once, holds the other tags in order, and normalising again changes nothing |
| ComfyUIReleases.ReleasesHook.FetchOnMount | src/hooks/use-comfyui-releases.ts:13-44 | with a cache, the cached list is used and nothing is fetched; otherwise one fetch, and on success the options and the cache become the normalised list; on failure the error message is recorded |
| ComfyUIReleases.ReleasesHook.Refresh | src/hooks/use-comfyui-releases.ts:54-71 | always one fetch, overwriting the cache on success |
| ComfyUIInstall.InstallMountsSpec | src/hooks/use-comfyui-install.ts:42-56 | Custom recomputes the host paths; `Auto` gets `[]`; any other type gets its preset for the new path |
| ComfyUIInstall.InstallThenEffectStable | src/hooks/use-comfyui-install.ts:42-56 | the path effect re-triggered by the new path leaves the updated list unchanged |
| ComfyUIInstall.InstallAgreesWithRecompute | src/hooks/use-comfyui-install.ts:52-53 | on an untouched preset, regenerating and recomputing agree |
| ComfyUIInstall.UpdateMountConfigs | src/hooks/use-comfyui-install.ts:42-56 | the form's mounts become the update's result, which is returned; nothing else changes |
| EnvironmentHooks.FormDefaults | src/hooks/environment-hooks.ts:24-38 | path from settings, then the build default, then `""`; port `"undefined"` without a stored port; the Default preset for that path; the defaults never pass the schema |
| EnvironmentHooks.DuplicateFormDefaults | src/hooks/environment-hooks.ts:213-234 | name plus `-copy`, valid iff the source name has at most 123 UTF-16 code units; `Auto` with every stored binding; the base image or `""`, which fails the schema; the path and port fallback chains |
| EnvironmentHooks.SubmitInputCarriesForm | src/hooks/environment-hooks.ts:156-166 | a validated form's name, image, path, command, port, runtime and mounts carry over, and no folder is set yet |
| EnvironmentHooks.CheckDecision | src/hooks/environment-hooks.ts:118-141 | the handler is reached iff both checks returned `true` (the path only counting when asked for); an invalid or throwing path check wins over the image |
| EnvironmentHooks.ContinueCallsGate | src/hooks/environment-hooks.ts:115-149 | the create handler is called only after both checks passed, with the selected folder set; without `installComfyUI` the path is never checked |
| EnvironmentHooks.EnvironmentCreation.CreateEnvironment | src/hooks/environment-hooks.ts:88-113 | no input is a no-op; otherwise one handler call with the folder; success closes and resets the form; a toast, loading off and nothing pending either way |
| EnvironmentHooks.EnvironmentCreation.ContinueCreateEnvironment | src/hooks/environment-hooks.ts:115-149 | the calls, toasts and dialogs follow the check decision; an invalid path opens only the install question, a missing image only the pull dialog |
| EnvironmentHooks.EnvironmentCreation.HandleSubmit | src/hooks/environment-hooks.ts:151-179 | an invalid form changes nothing; otherwise the input built from the form becomes pending and goes through both checks, with the calls, toasts, dialogs and pending input the decision implies; a created environment closes the dialog and resets the form, a throw of the handler leaves both; the install flag, the release and the selected folder are unchanged |
| EnvironmentHooks.EnvironmentCreation.InstallFinished | src/hooks/environment-hooks.ts:67-85 | the form takes the installed path and the updated mounts, the pending input is rebuilt from them, and both checks run again on it with the install flag set, with the calls, toasts and dialogs that decision implies; when both pass, a created environment closes the dialog and resets the form, and a throw of the handler keeps the dialog and the installed path and mounts in the form |
| EnvironmentHooks.EnvironmentCreation.HandleInstallComfyUI | src/hooks/use-comfyui-install.ts:17-40 | the installer gets the form's path and the branch; on a throw an error toast and nothing else changes; on success the path gets its suffix, the mounts are updated and the rewritten input is checked again, ending with the dialogs, the pending input, the open state and the form that the decision and the create outcome imply |
| EnvironmentHooks.EnvironmentCreation.HandleEnvironmentTypeChange | src/hooks/environment-hooks.ts:181-186 | the type and its preset for the form's path |
| EnvironmentHooks.DuplicateAutoMounts | src/hooks/environment-hooks.ts:307-330 | under `Auto` the duplicate holds exactly the source's `mount` bindings, equal to the defaults iff the source has no copy |
| EnvironmentHooks.DuplicateIgnoresFormImage | src/hooks/environment-hooks.ts:284-294 | the duplicate carries the source's image whatever the form holds |
| EnvironmentHooks.EnvironmentDuplication.CreateEnvironment | src/hooks/environment-hooks.ts:252-277 | one duplicate call with the source id or `""` and the folder set; success closes and resets the form; a toast and loading off either way |
| EnvironmentHooks.EnvironmentDuplication.HandleSubmit | src/hooks/environment-hooks.ts:279-305 | no path or image check; the handler gets the form's values with the source's image; success closes, resets the form and shows "Environment duplicated successfully", a throw keeps both and shows its message or "Duplication failed"; loading ends; the release and the selected folder are unchanged |
| EnvironmentHooks.EnvironmentDuplication.HandleEnvironmentTypeChange | src/hooks/environment-hooks.ts:307-330 | `Auto` gets the stored `mount` bindings, Custom all stored bindings, any other type its preset |
| CreateEnvironmentDialog.WithoutAuto | src/components/dialogs/CreateEnvironmentDialog.tsx:99-106 | the kept types are exactly the types other than `Auto` |
| CreateEnvironmentDialog.CreateTypeOptions | src/components/dialogs/CreateEnvironmentDialog.tsx:99-106 | the dialog offers the six non-`Auto` types in enum order |
| CreateEnvironmentDialog.CreateDialog.InstallCancel | src/components/dialogs/CreateEnvironmentDialog.tsx:118-122 | the question closes and loading ends; no call, no toast, the input stays pending; the dialog's open state, the install flag and the selected folder are unchanged |
| CreateEnvironmentDialog.CreateDialog.ProceedWithoutComfyUI | src/components/dialogs/CreateEnvironmentDialog.tsx:123-128 | the pending input goes on without the path check, with the toasts that implies; the pull dialog opens iff the image was not found, and then the input stays pending with the dialog and form as they were; otherwise a created environment closes the dialog and resets the form, a throw leaves both; the install flag and the selected folder are unchanged |
| CreateEnvironmentDialog.CreateDialog.PullOpenChange | src/components/dialogs/CreateEnvironmentDialog.tsx:136-142 | closing drops the pending input and ends loading; the dialog's open state, the install question, the install flag, the selected folder, the calls and the toasts are unchanged |
| CreateEnvironmentDialog.CreateDialog.PullSuccess | src/components/dialogs/CreateEnvironmentDialog.tsx:143-147 | the pending input goes straight to the create handler with no check repeated; success closes the dialog and resets the form, a throw keeps both; the install flag and the selected folder are unchanged |
| CreateEnvironmentDialog.CreateDialog.RequestOpenChange | src/components/dialogs/CreateEnvironmentDialog.tsx:152 | ignored while the install question is open; opening resets the form (lines 87-91); the pending input, the dialogs, loading, the calls, the toasts, the install flag and the selected folder are unchanged |
| CreateEnvironmentDialog.CreateDialog.SelectImage | src/components/dialogs/CreateEnvironmentDialog.tsx:93-96 | the form's image becomes the chosen image and the selector closes |
| CreateEnvironmentDialogCopy.CopyRuntimeDefault | src/components/dialogs/CreateEnvironmentDialogCopy.tsx:105 | no stored runtime gives `"undefined"`, an empty one `"nvidia"`, any other is kept |
| CreateEnvironmentDialogCopy.CopyFormDefaults | src/components/dialogs/CreateEnvironmentDialogCopy.tsx:92-107 | the path chain, an empty image, Default with its preset; the defaults never pass the dialog's schema |
| CreateEnvironmentDialogCopy.CopyInputImage | src/components/dialogs/CreateEnvironmentDialogCopy.tsx:177-190 | without a form image the image is `akatzai/comfyui-env:<release>`; the resolved release is recorded in the options |
| CreateEnvironmentDialogCopy.ImageFirstDecision | src/components/dialogs/CreateEnvironmentDialogCopy.tsx:233-247 | the handler is reached iff both checks return `true`; a missing image asks to pull; a bad path asks to install only once the image exists; a throw ends the attempt |
| CreateEnvironmentDialogCopy.CheckOrdersDiffer | src/components/dialogs/CreateEnvironmentDialogCopy.tsx:233-247 | the two check orders agree except when both checks fail: path-first asks to install, image-first asks to pull |
| CreateEnvironmentDialogCopy.ImageFirstDialog.FinishCreateEnvironment | src/components/dialogs/CreateEnvironmentDialogCopy.tsx:213-228 | success closes, resets and toasts; a throw is not caught and leaves the state as it was |
| CreateEnvironmentDialogCopy.ImageFirstDialog.ContinueCreateEnvironment | src/components/dialogs/CreateEnvironmentDialogCopy.tsx:230-258 | calls and dialogs follow the image-first decision; any throw gives an error toast, loading off and nothing pending; the release becomes "latest" exactly when an environment is created and is kept otherwise |
| CreateEnvironmentDialogCopy.ImageFirstDialog.OnSubmit | src/components/dialogs/CreateEnvironmentDialogCopy.tsx:175-211 | the release is resolved, the input built and made pending and checked; the question, the pull dialog, the pending input, the modal and the form end as the image-first decision and the create outcome imply; the release becomes "latest" exactly when an environment is created and is kept otherwise; loading is off at the end |
| CreateEnvironmentDialogCopy.ImageFirstDialog.HandleInstallComfyUI | src/components/dialogs/CreateEnvironmentDialogCopy.tsx:290-354 | the installer gets the path and the resolved release; on success every non-overridden host path is recomputed whatever the type and the rewritten input is checked again, ending as that decision and the create outcome imply (the release becomes "latest" exactly when an environment is created); on a throw the question closes, nothing is pending and the form, the release and the modal are kept; the release options are unchanged |
| CreateEnvironmentDialogCopy.ImageFirstDialog.RecheckInstalled | src/components/dialogs/CreateEnvironmentDialogCopy.tsx:301-337 | the question closes with a success toast, the path gets its ComfyUI suffix, the non-overridden host paths are recomputed for it, and the rewritten pending input is checked and settled as `continueCreateEnvironment` decides; the release is reset to "latest" exactly when an environment is created and is kept otherwise |
| CreateEnvironmentDialogCopy.ImageFirstDialog.DeclineInstall | src/components/dialogs/CreateEnvironmentDialogCopy.tsx:367-371 | the pending input goes unchecked to the handler; success closes the modal, resets the form and the release, and drops the input; a throw is returned uncaught with the input pending and the form, the release and the modal as they were; the release options are unchanged |
| CreateEnvironmentDialogCopy.ImageFirstDialog.PullOpenChange | src/components/dialogs/CreateEnvironmentDialogCopy.tsx:379-385 | closing the pull dialog drops the pending input and ends loading; the modal, the release options, the install question, the calls and the toasts are unchanged |
| CreateEnvironmentDialogCopy.ImageFirstDialog.PullSuccess | src/components/dialogs/CreateEnvironmentDialogCopy.tsx:386-390 | the pending input is checked again from the start, and the question, the pull dialog, the pending input, the modal and the form end as that decision and the create outcome imply; the release becomes "latest" exactly when an environment is created and is kept otherwise |
| CreateEnvironmentDialogCopy.ImageFirstDialog.RequestOpenChange | src/components/dialogs/CreateEnvironmentDialogCopy.tsx:146-159 | ignored while the install question is open; opening fetches the tags and a success normalises them into the options; loading, the two question dialogs, the pending input, the calls and the toasts are unchanged |
| CreateEnvironmentDialogCopy.ImageFirstDialog.HandleEnvironmentTypeChange | src/components/dialogs/CreateEnvironmentDialogCopy.tsx:260-271 | the type and its preset; the re-triggered path effect finds the preset in place |
| CreateEnvironmentDialogCopy.ImageFirstDialog.HandleMountConfigChange | src/components/dialogs/CreateEnvironmentDialogCopy.tsx:273-275 | Custom, and when the type was another the re-triggered effect recomputes the host paths |
| CreateEnvironmentDialogCopy.ImageFirstDialog.ChangeComfyUIPath | src/components/dialogs/CreateEnvironmentDialogCopy.tsx:119-144 | the path is set and the effect recomputes or regenerates the mounts |
| Sorting.SortSorted | src/components/DockerImageSelector.tsx:66 | sorting by a strict order gives a permutation of the input in which no element precedes a strictly smaller one |
| DockerImageSelector.ParseTagSpec | src/components/DockerImageSelector.tsx:51-62 | field 0 is the ComfyUI version, fields 1-3 lose their first `py`/`cuda`/`pt`, missing fields are `""`, and the name and digest carry over |
| DockerImageSelector.ParseTagRoundTrip | src/components/DockerImageSelector.tsx:51-62 | a tag built as `<c>-py<p>-cuda<u>-pt<t>` from dash-free versions parses back into them |
| DockerImageSelector.ParseTagIgnoresExtraFields | src/components/DockerImageSelector.tsx:51-52 | fields beyond the fourth change no version |
| DockerImageSelector.WithoutLatestTags | src/components/DockerImageSelector.tsx:49 | exactly the tags not named `"latest"` are kept |
| DockerImageSelector.WithoutLatestTagsAppend | src/components/DockerImageSelector.tsx:49 | the filter distributes over concatenation, so the other tags keep their order and their copies |
| DockerImageSelector.ImageLessStrict | src/components/DockerImageSelector.tsx:67-93 | the image comparator is irreflexive and transitive |
| DockerImageSelector.ImageOrderKeys | src/components/DockerImageSelector.tsx:67-93 | of two images in comparator order, the first key they differ on puts the first ahead: ComfyUI, Python, CUDA descending, stable before nightly, PyTorch descending |
| DockerImageSelector.ParsedImagesSpec | src/components/DockerImageSelector.tsx:48-94 | the list holds exactly the parses of the non-`"latest"` tags with their multiplicities, no image tagged `"latest"`, sorted by the comparator |
| DockerImageSelector.VersionOptionsSpec | src/components/DockerImageSelector.tsx:97-114 | an option list holds exactly the values that occur, without repeats, strictly descending |
| DockerImageSelector.VersionsSpec | src/components/DockerImageSelector.tsx:97-114 | each of the three lists (ComfyUI, Python, CUDA) offers exactly the versions some image has in that column, strictly descending |
| DockerImageSelector.InstalledDigests | src/components/DockerImageSelector.tsx:125-133 | a digest is in the set iff it is non-empty and some installed image has it |
| DockerImageSelector.FilterImages | src/components/DockerImageSelector.tsx:141-151 | an image is kept iff each selector is `"all"` or equal to its field and the search text is empty or a substring of the lower-cased tag |
| DockerImageSelector.FilterImagesAppend | src/components/DockerImageSelector.tsx:141-151 | the filter distributes over concatenation, so the matching images keep their order and their copies |
| DockerImageSelector.SearchIgnoresCase | src/components/DockerImageSelector.tsx:149-150 | searching for the lower-cased text selects the same images |
| DockerImageSelector.NoFilterKeepsAll | src/components/DockerImageSelector.tsx:117-120 | with the initial controls nothing is filtered out |
| DockerImageSelector.IsImageInstalledAsWritten | src/components/DockerImageSelector.tsx:136-138 | as written the flag is the empty string for an empty digest and otherwise whether the digest is installed; its truthiness is the intended flag |
| DockerImageSelector.EmptyDigestInconsistent | src/components/DockerImageSelector.tsx:152-158 | as written an image with an empty digest and an image not installed each sort after the other, while the intended comparator puts at most one ahead |
| DockerImageSelector.InstalledCompareAgrees | src/components/DockerImageSelector.tsx:152-187 | unless exactly one digest is empty and the other image is not installed, the comparator as written puts `a` first iff the intended one does |
| DockerImageSelector.InstalledLessStrict | src/components/DockerImageSelector.tsx:152-187 | the installed-first comparator, an empty digest counting as not installed, is irreflexive and transitive |
| DockerImageSelector.FilteredImagesSpec | src/components/DockerImageSelector.tsx:141-188 | the shown list holds exactly the matching images; every installed image precedes every non-installed one (an empty digest counting as not installed); same-status images follow the image comparator |
| DockerImageSelector.ImageSelector.HandleSelectImage | src/components/DockerImageSelector.tsx:190-194 | `onSelect` receives the image, then the selector closes |
| UserSettingsDialog.DefaultsSpec | src/components/dialogs/UserSettingsDialog.tsx:64-71 | the default port and retention count are in range, the empty default path fails, and any non-empty path makes the defaults valid |
| UserSettingsDialog.PortSpec | src/components/dialogs/UserSettingsDialog.tsx:38 | a whole-number port is accepted iff it is from 1024 to 65535; a port half-way between two whole numbers is refused |
| UserSettingsDialog.LoadedSettingsRoundTrip | src/components/dialogs/UserSettingsDialog.tsx:36-47 | stored settings validate iff path and runtime are non-empty and port and retention count are in range; valid ones submit back unchanged |
| UserSettingsDialog.SettingsDialog.OpenChange | src/components/dialogs/UserSettingsDialog.tsx:73-93 | opening loads the stored settings into the form, or shows "Failed to load user settings" and keeps the values |
| UserSettingsDialog.SettingsDialog.Submit | src/components/dialogs/UserSettingsDialog.tsx:95-116 | invalid values never reach the handler; valid values are passed once; success closes with a success toast, a throw keeps it open with an error toast; loading ends false |

## Left out

- Rendering, styling, toast durations, `console` logging and every purely presentational component are not
  modelled: `FolderSelector.tsx`, `DockerImageSelectFormField.tsx`, `FormFieldComponent.tsx`,
  `ComfyUIInstallDialog.tsx`, and the markup of the dialogs.
- `ComfyUIInstallDialog.tsx` disables its action without a selected version. This is why the install
  handlers take the branch as given.
- `@/api/environmentApi` is not part of this model: every backend call is an `Outcome` parameter, as above.
- The image pull itself (`pullImageStream`) is not modelled; only the pull dialog's close and success events are.
- Timing: React's effect scheduling, the 300 ms debounce of the path effect and async interleaving. Each
  handler is one atomic step on the latest values. `EnvironmentForm.PathChangeLastWins` shows that the
  dropped intermediate paths cannot change the outcome.
- `@/components/utils/PathUtils` is not part of this model. Its `joinPaths` and `updateComfyUIPath`, used
  by `use-comfyui-install.ts`, `EnvironmentForm.tsx` and `MountConfigRow.tsx`, are assumed to behave like
  `MountConfigUtils.ts:4-17` and `CreateEnvironmentDialogCopy.tsx:277-288`.
- Stale signatures are modelled as declared rather than as called:
  - `environment-hooks.ts:67` passes four arguments to the three-parameter `useComfyUIInstall`; the model
    uses the finish callback of lines 67-85.
  - `CreateEnvironmentDialog.tsx:81-85` passes three arguments to the five-parameter hook.
  - `DockerImageSelector.tsx:46` reads tag records and `installedImages` that `use-comfyui-releases.ts`
    does not return; the selector's lists take the tag records and installed images as parameters.
- The duplicated enums of `MountConfigUtils.ts:22-48` are merged into `Environment.EnvironmentType`.
- `createEnvironment` sets `folderIds` on its argument in place. The model passes on a copy with the
  field set, so aliasing of the pending input is not modelled.
- The "No pending environment" throw of the install callback (`environment-hooks.ts:68`) is left out,
  and so are the `|| ""` fallbacks on a missing pending input in both install handlers. The states the
  handlers keep (`Valid()`) always have an input pending while the install question is open.
- The resets that follow a change of the defaults are not modelled; each dialog's defaults are fixed when
  it is built. CreateEnvironmentDialog.CreateDialog resets its form when `formDefaults` changes while it is
  open (`CreateEnvironmentDialog.tsx:87-91`); only the reset on opening is modelled. The image-first dialog
  resets when the settings change (`CreateEnvironmentDialogCopy.tsx:161-163`).
- `EnvironmentHooks.EnvironmentCreation.HandleEnvironmentTypeChange`,
  `CreateEnvironmentDialogCopy.ImageFirstDialog.HandleEnvironmentTypeChange` and
  `CreateEnvironmentDialogCopy.ImageFirstDialog.ChangeComfyUIPath` require a type other than `Auto`.
  Those dialogs never offer `Auto`, and `getDefaultMountConfigsForEnvType` has no case for it.
- DockerImageSelector.ImageLess: `localeCompare` with numeric collation is replaced by the code-point order
  `Strings.LexLess`, so the version `"9"` is listed before `"10"` here. Only the properties of a strict
  total order are used.
- DockerImageSelector.FilterImages: `toLowerCase` is modelled for ASCII letters only.
- DockerImageSelector.InstalledLess: an empty digest counts as not installed (`false`), where the source's
  flag is `""`; the comparator as written is modelled beside it (see Findings), and the order the engine's
  `sort` gives an inconsistent comparator is not modelled.
- DockerImageSelector.InstalledLessStrict: proved for the corrected flag; the comparator as written is not a
  strict order once an empty digest meets an image that is not installed (`EmptyDigestInconsistent`).
- DockerImageSelector.FilteredImagesSpec: the installed-first order is the corrected comparator's; on the
  inputs that `InstalledCompareAgrees` covers it is also the order the comparator as written asks for.
- Sorting.SortSorted: stability of the sort (tied images keep their relative order) is not stated.
- Image sizes and dates are display-only floats and strings and are not carried in `DockerImage`.
- `UserSettingsDialog`: form numbers are modelled as reals. The zod checks on `command` (a string) and on
  the folder records' field types are the TypeScript types themselves.

## Findings

| source | as written | input that shows it | evidently intended | confidence | as-written member | corrected member |
|---|---|---|---|---|---|---|
| src/components/DockerImageSelector.tsx:136-158 | `isImageInstalled` returns `digest && installedDigests.has(digest)`, which is `""` for an empty digest, and the comparator tests the two flags with `!==` | an image with digest `""` and an image whose digest is not installed: `""` and `false` are unequal and neither is truthy, so each compares after the other | a boolean flag, an empty digest counting as not installed | not executed; high | DockerImageSelector.EmptyDigestInconsistent | DockerImageSelector.InstalledLessStrict |
