/** Directory layout shared by every controller. Only the shape of
    `shared.PathData(homeDir)` and `shared.PathConfig(homeDir)` is used here
    (two functions of the home directory); their bodies are parameters. */
module Shared {

  datatype Paths = Paths(data: string -> string, config: string -> string)
}
