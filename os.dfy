/**
 * The file system as far as logger.py touches it (lines 41-42): the set of
 * directory paths that exist. `existing` records only logger.py's own calls:
 * the parents `os.makedirs` creates and the tier directories and log files
 * that loguru creates when a file sink is added are not recorded.
 */
module Os {

  class Directories {
    var existing: set<string>

    constructor(existing: set<string>)
      ensures this.existing == existing
    {
      this.existing := existing;
    }

    /** `os.path.exists`. */
    method Exists(path: string) returns (b: bool)
      ensures b <==> path in existing
    {
      b := path in existing;
    }

    /** `os.makedirs(path, exist_ok=True)`. */
    method MakeDirs(path: string)
      modifies this
      ensures existing == old(existing) + {path}
    {
      existing := existing + {path};
    }
  }
}
