/**
 * The part of the file system the benchmark writes to: files opened for
 * appending (`std::ofstream` with `std::ios_base::app`). Which paths can be
 * opened is fixed when the store is made; everything else about the file
 * system is not part of this model.
 */
module Files {

  /** The text of `path`, or nothing when it does not exist yet. */
  function TextOf(files: map<string, string>, path: string): string
  {
    if path in files then files[path] else ""
  }

  class FileStore {
    /** The text of every file that exists. */
    var contents: map<string, string>
    /** The paths an append-mode open succeeds on. */
    const openable: set<string>

    constructor (contents: map<string, string>, openable: set<string>)
      ensures this.contents == contents && this.openable == openable
    {
      this.contents := contents;
      this.openable := openable;
    }

    /**
     * Opens `path` for appending and writes `text` at its end, creating the
     * file when it is missing; `ok` tells whether the open succeeded. No
     * other file changes.
     */
    method Append(path: string, text: string) returns (ok: bool)
      modifies this`contents
      ensures ok <==> path in openable
      ensures ok ==> contents == old(contents)[path := TextOf(old(contents), path) + text]
      ensures !ok ==> contents == old(contents)
    {
      ok := path in openable;
      if ok {
        contents := contents[path := TextOf(contents, path) + text];
      }
    }
  }
}
