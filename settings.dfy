/** The run configuration the command-line layer hands to the core: the
    merged config file and command-line flags. */
module Settings {

  /** A Python `None` or empty string for `limit` and `ansible_bin` is written
      here as "" (both are falsy and treated alike by the core). `environment`
      holds the command line's `-e` items, each already prefixed with `-e `. */
  datatype Config = Config(
    deploymentTasks: seq<string>,
    environment: seq<string>,
    limit: string,
    skipDgNotfound: bool,
    ansibleBin: string,
    ansibleDryRun: bool,
    ansibleDebug: bool,
    dryRun: bool,
    debug: bool)
}
