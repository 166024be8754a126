/**
 * The two filesystem queries the application constructor makes, `is_dir`
 * and `realpath`, answered from a fixed snapshot of the filesystem.
 */
module Filesystem {

  /** `DS`, the framework's name for `DIRECTORY_SEPARATOR`, on a POSIX host. */
  const DS: char := '/'

  /** A path that ends with the directory separator. */
  type DirPath = p: string | |p| > 0 && p[|p| - 1] == DS witness [DS]

  /**
   * The directories visible to the process: each path that names a
   * directory, mapped to what `realpath` makes of it.
   */
  datatype FileSystem = FileSystem(directories: map<string, string>) {

    /** `is_dir($path)`. */
    predicate IsDir(path: string) {
      path in directories
    }

    /** `realpath($path)` for a path that names a directory. */
    function RealPath(path: string): string
      requires IsDir(path)
    {
      directories[path]
    }
  }
}
