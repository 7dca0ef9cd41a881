/**
 * The decisions New makes before starting llama-server: the default model and the
 * argument vector. Locating the working directory and the binary are filesystem
 * facts, passed in as parameters; starting the process is not modelled.
 */
module Server {
  import opened Wrappers

  const DefaultModel: string := "tensorblock/pygmalion-2-7b-GGUF:Q4_K_M"
  const MissingBinaries: string := "could not find llama.cpp binaries, run DownloadRequirements to fix"

  /** An empty model name is replaced by the default one. */
  function ModelName(hfModelName: string): (name: string)
    ensures name != ""
    ensures hfModelName != "" ==> name == hfModelName
    ensures hfModelName == "" ==> name == DefaultModel
  {
    if hfModelName == "" then DefaultModel else hfModelName
  }

  /** The arguments llama-server is started with. */
  function ServerArgs(hfModelName: string, port: string): (args: seq<string>)
    ensures |args| == 6
    ensures args[0] == "-hf" && args[1] == ModelName(hfModelName)
    ensures args[2] == "--port" && args[3] == port
    ensures args[4] == "--threads" && args[5] == "6"
  {
    ["-hf", ModelName(hfModelName), "--port", port, "--threads", "6"]
  }

  /**
   * What New does before Start: a failing os.Getwd is returned as is, a missing
   * llama-server binary is reported, and otherwise the server is launched with ServerArgs.
   */
  function Launch(hfModelName: string, port: string, cwd: Result<string>, serverExists: bool): (r: Result<seq<string>>)
    ensures cwd.Err? ==> r == Err(cwd.msg)
    ensures cwd.Ok? && !serverExists ==> r == Err(MissingBinaries)
    ensures r.Ok? <==> cwd.Ok? && serverExists
    ensures r.Ok? ==> r.value == ServerArgs(hfModelName, port)
  {
    match cwd
    case Err(e) => Err(e)
    case Ok(_) => if !serverExists then Err(MissingBinaries) else Ok(ServerArgs(hfModelName, port))
  }
}
