/**
  The part of the build machine the build support observes, as a value:
  environment variables, existing directories, and existing files with their
  lines. `Environment.GetEnvironmentVariable`, `Directory.Exists`,
  `File.Exists` and `File.ReadAllLines` become lookups in it.
 */
module Host {
  import opened Wrappers

  datatype World = World(
    env: map<string, string>,
    dirs: set<string>,
    files: map<string, seq<string>>)
  {
    /** `Environment.GetEnvironmentVariable(name)`: `null` (None) when unset. */
    function GetEnv(name: string): Option<string> {
      if name in env then Some(env[name]) else None
    }

    /** `Directory.Exists(path)`. */
    predicate DirectoryExists(path: string) {
      path in dirs
    }

    /** `File.Exists(path)`. */
    predicate FileExists(path: string) {
      path in files
    }

    /** `File.ReadAllLines(path)` of an existing file. */
    function ReadAllLines(path: string): seq<string>
      requires FileExists(path)
    {
      files[path]
    }
  }
}
