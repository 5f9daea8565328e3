/** The calls the core makes into the backend client (`@/api/environmentApi`, which is not part of this
    model). Each call is recorded in a log, in the order it is made; what it returns is a parameter of the
    handler that makes it. */
module Backend {
  import opened Environment

  datatype Call =
    | CheckPath(path: string)                           // checkValidComfyUIPath
    | CheckImage(image: string)                         // checkImageExists
    | CreateCall(env: EnvironmentInput)                 // the create handler
    | DuplicateCall(id: string, env: EnvironmentInput)  // the duplicate handler
    | InstallCall(path: string, branch: string)         // tryInstallComfyUI
}
