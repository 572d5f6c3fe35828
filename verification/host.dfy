/** The part of the outside world that options() consults, as a value. */
module Host {

  /** Where Search.match_files starts: the working directory (no `root` argument)
      or a given directory. */
  datatype Root = WorkingDirectory | Under(dir: string)

  /** Existing regular files (os.path.isfile), existing directories (os.path.isdir)
      and the ordered results of Search.match_files(pattern, root), whose
      implementation is not part of this model. */
  datatype FileSystem = FileSystem(
    files: set<string>,
    dirs: set<string>,
    matches: (string, Root) -> seq<string>)
}
