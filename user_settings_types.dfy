/** The stored user settings of src/types/UserSettings.ts. Every field may be absent. */
module UserSettingsTypes {
  import opened Wrappers

  datatype Folder = Folder(id: string, name: string, icon: Option<string>)

  datatype UserSettings = UserSettings(
    comfyui_path: Option<string>,
    port: Option<int>,
    runtime: Option<string>,
    command: Option<string>,
    folders: Option<seq<Folder>>,
    max_deleted_environments: Option<int>)

  /** `userSettings?.comfyui_path` and its siblings: absent when the settings themselves are. */
  function SettingsPath(s: Option<UserSettings>): Option<string> {
    if s.Some? then s.value.comfyui_path else None
  }

  function SettingsCommand(s: Option<UserSettings>): Option<string> {
    if s.Some? then s.value.command else None
  }

  function SettingsRuntime(s: Option<UserSettings>): Option<string> {
    if s.Some? then s.value.runtime else None
  }

  function SettingsPort(s: Option<UserSettings>): Option<int> {
    if s.Some? then s.value.port else None
  }
}
