/** The data model of src/types/Environment.ts: environment types, mount records, form values, the inputs
    sent to the backend, and the zod form schema as validity functions. */
module Environment {
  import opened Wrappers
  import opened Strings

  /** The seven environment types. The list in MountConfigUtils.ts is the same without `Auto`. */
  datatype EnvironmentType =
    | Auto
    | Default
    | DefaultPlusWorkflows
    | DefaultPlusCustomNodes
    | DefaultPlusBoth
    | Isolated
    | Custom

  /** The enum's string values, in declaration order (what `Object.values` lists). */
  const AllEnvironmentTypes: seq<EnvironmentType> :=
    [Auto, Default, DefaultPlusWorkflows, DefaultPlusCustomNodes, DefaultPlusBoth, Isolated, Custom]

  function EnvironmentTypeName(t: EnvironmentType): string {
    match t
    case Auto => "Auto"
    case Default => "Default"
    case DefaultPlusWorkflows => "Default+Workflows"
    case DefaultPlusCustomNodes => "Default+CustomNodes"
    case DefaultPlusBoth => "Default+Both"
    case Isolated => "Isolated"
    case Custom => "Custom"
  }

  /** `z.nativeEnum(EnvironmentTypeEnum)`: accepts exactly the seven string values. */
  function ParseEnvironmentType(s: string): (r: Option<EnvironmentType>)
    ensures r.Some? ==> EnvironmentTypeName(r.value) == s
  {
    if s == "Auto" then Some(Auto)
    else if s == "Default" then Some(Default)
    else if s == "Default+Workflows" then Some(DefaultPlusWorkflows)
    else if s == "Default+CustomNodes" then Some(DefaultPlusCustomNodes)
    else if s == "Default+Both" then Some(DefaultPlusBoth)
    else if s == "Isolated" then Some(Isolated)
    else if s == "Custom" then Some(Custom)
    else None
  }

  /** Every type's string value is accepted and denotes that type, and the seven values are all listed. */
  lemma EnvironmentTypeRoundTrip(t: EnvironmentType)
    ensures ParseEnvironmentType(EnvironmentTypeName(t)) == Some(t)
    ensures t in AllEnvironmentTypes
  {
  }

  /** Whether a mount binds the host directory (`"mount"`) or copies it once (`"copy"`). */
  datatype MountAction = Mount | Copy

  function MountActionName(a: MountAction): string {
    match a
    case Mount => "mount"
    case Copy => "copy"
  }

  function ParseMountAction(s: string): (r: Option<MountAction>)
    ensures r.Some? <==> (s == "mount" || s == "copy")
    ensures r.Some? ==> MountActionName(r.value) == s
  {
    if s == "mount" then Some(Mount) else if s == "copy" then Some(Copy) else None
  }

  /** A mount binding. `override == true` freezes `host_path` against recomputation. A record built without
      an `override` field (createMountConfig, the legacy parse) reads as `false`. */
  datatype MountEntry = MountEntry(
    container_path: string,
    host_path: string,
    action: MountAction,
    read_only: bool,
    override: bool)

  /** A mount before schema parsing: `type` is any string, the booleans may be missing. */
  datatype RawMount = RawMount(
    container_path: string,
    host_path: string,
    action: string,
    read_only: Option<bool>,
    override: Option<bool>)

  /** `mountSchema.safeParse`: `type` must be `"mount"` or `"copy"`; missing booleans default to `false`. */
  function ParseMount(raw: RawMount): (r: Option<MountEntry>)
    ensures r.Some? <==> ParseMountAction(raw.action).Some?
    ensures r.Some? ==> r.value.container_path == raw.container_path && r.value.host_path == raw.host_path
    ensures r.Some? ==> MountActionName(r.value.action) == raw.action
    ensures r.Some? ==> r.value.read_only == raw.read_only.GetOr(false) && r.value.override == raw.override.GetOr(false)
  {
    match ParseMountAction(raw.action)
    case None => None
    case Some(a) => Some(MountEntry(raw.container_path, raw.host_path, a,
                                    raw.read_only.GetOr(false), raw.override.GetOr(false)))
  }

  function ParseMounts(raws: seq<RawMount>): (r: Option<seq<MountEntry>>)
    ensures r.Some? <==> forall i :: 0 <= i < |raws| ==> ParseMount(raws[i]).Some?
    ensures r.Some? ==> |r.value| == |raws| && forall i :: 0 <= i < |raws| ==> ParseMount(raws[i]) == Some(r.value[i])
  {
    if raws == [] then Some([])
    else match (ParseMount(raws[0]), ParseMounts(raws[1..]))
      case (Some(m), Some(rest)) => Some([m] + rest)
      case _ => None
  }

  /** The values of the environment form (`EnvironmentFormValues`). `image` is nullable; `command`, `port`
      and `runtime` are optional. */
  datatype FormValues = FormValues(
    name: string,
    image: Option<string>,
    comfyUIPath: string,
    environmentType: EnvironmentType,
    command: Option<string>,
    port: Option<string>,
    runtime: Option<string>,
    mountConfig: seq<MountEntry>)

  /** The form before schema parsing. */
  datatype RawFormValues = RawFormValues(
    name: string,
    image: Option<string>,
    comfyUIPath: string,
    environmentType: string,
    command: Option<string>,
    port: Option<string>,
    runtime: Option<string>,
    mountConfig: seq<RawMount>)

  /** `name`: between 1 and 128 characters, both ends included, counted as zod counts them, in UTF-16 code
      units. */
  predicate NameValid(name: string) {
    1 <= Utf16Length(name) <= 128
  }

  /** `comfyUIPath`: `min(1)`. */
  predicate ComfyUIPathValid(path: string) {
    |path| >= 1
  }

  /** `image`: `min(1)`, made nullable, then a refinement that rejects `null`. */
  predicate ImageValid(image: Option<string>) {
    image.Some? && |image.value| >= 1
  }

  /** The field rules of `baseFormSchema` that typed values can still break. */
  predicate FormValuesValid(v: FormValues) {
    NameValid(v.name) && ComfyUIPathValid(v.comfyUIPath) && ImageValid(v.image)
  }

  /** `baseFormSchema.safeParse`: accepted exactly when every field rule holds; the accepted values carry
      the fields over, the type and the mounts parsed. `command`, `port` and `runtime` are never rejected. */
  function ParseForm(raw: RawFormValues): (r: Option<FormValues>)
    ensures r.Some? <==>
      NameValid(raw.name) && ComfyUIPathValid(raw.comfyUIPath) && ImageValid(raw.image)
      && ParseEnvironmentType(raw.environmentType).Some? && ParseMounts(raw.mountConfig).Some?
    ensures r.Some? ==> FormValuesValid(r.value)
    ensures r.Some? ==>
      && r.value.name == raw.name && r.value.image == raw.image
      && r.value.comfyUIPath == raw.comfyUIPath && r.value.command == raw.command
      && r.value.port == raw.port && r.value.runtime == raw.runtime
      && EnvironmentTypeName(r.value.environmentType) == raw.environmentType
      && Some(r.value.mountConfig) == ParseMounts(raw.mountConfig)
  {
    if !(NameValid(raw.name) && ComfyUIPathValid(raw.comfyUIPath) && ImageValid(raw.image)) then None
    else match (ParseEnvironmentType(raw.environmentType), ParseMounts(raw.mountConfig))
      case (Some(t), Some(ms)) =>
        Some(FormValues(raw.name, raw.image, raw.comfyUIPath, t, raw.command, raw.port, raw.runtime, ms))
      case _ => None
  }

  /** The `options` bag of an environment input. Only the keys the core writes are modelled. */
  datatype Options = Options(
    port: Option<string>,
    runtime: Option<string>,
    mounts: seq<MountEntry>,
    comfyui_release: Option<string>,
    comfyui_path: Option<string>)

  /** `EnvironmentInput`: what is sent to the create and duplicate handlers. */
  datatype EnvironmentInput = EnvironmentInput(
    name: string,
    image: string,
    command: Option<string>,
    comfyui_path: Option<string>,
    options: Options,
    folderIds: Option<seq<string>>)

  /** A value found under a key of a legacy mount config: a string, or anything else. */
  datatype LegacyValue = Text(text: string) | NonText

  /** `options.mount_config` of a stored environment, as `parseExistingMountConfig` distinguishes it:
      a falsy value; a value whose `mounts` is an array (its items taken as mount records, as the source's
      cast does); or any other truthy value, seen through the key/value pairs `Object.entries` lists. */
  datatype MountConfigData =
    | Falsy
    | WithMounts(mounts: seq<MountEntry>)
    | Entries(entries: seq<(string, LegacyValue)>)

  /** The `options` of a stored environment that the duplicate flow reads. */
  datatype StoredOptions = StoredOptions(port: Option<string>, runtime: Option<string>, mount_config: MountConfigData)

  /** `Environment`: an existing environment, the source of a duplicate. `baseImage` is `metadata.base_image`. */
  datatype Environment = Environment(
    name: string,
    image: string,
    id: Option<string>,
    command: Option<string>,
    comfyui_path: Option<string>,
    options: Option<StoredOptions>,
    baseImage: Option<string>)

  /** The 128-unit boundary is accepted (whatever the message says) and 129 is not. Within the Basic
      Multilingual Plane that is 128 characters; a name of `n` characters from outside it is `2 * n` units,
      so it is accepted exactly up to 64 characters. */
  lemma NameBoundary(name: string, c: char, n: nat)
    requires c as int >= 0x10000
    ensures Utf16Length(name) == 128 ==> NameValid(name)
    ensures |name| == 0 || Utf16Length(name) > 128 ==> !NameValid(name)
    ensures (forall i :: 0 <= i < |name| ==> name[i] as int < 0x10000) ==> (NameValid(name) <==> 1 <= |name| <= 128)
    ensures NameValid(seq(n, _ => c)) <==> 1 <= n <= 64
  {
    if forall i :: 0 <= i < |name| ==> name[i] as int < 0x10000 {
      Utf16LengthBmp(name);
    }
    Utf16LengthAstral(n, c);
  }
}
