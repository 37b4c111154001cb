/** packageImporter: the importer the type checker calls for every import path,
    which records the first import failure in a cell it shares with Compile. */
module Importer {

  import opened Wrappers

  datatype Error = Error(message: string)

  /** A compiled package as the importer sees it: its import path. */
  datatype Archive = Archive(importPath: string)

  /** A type-checked package: the built-in `unsafe` package or an ordinary one. */
  datatype Package = UnsafePackage | TypesPackage(path: string)

  /** The `*error` cell the importer shares with Compile; None is nil. */
  class ErrorCell {
    var err: Option<Error>

    constructor ()
      ensures err == None
    {
      err := None;
    }
  }

  /** ImportContext: the packages type-checked so far, and the function that
      loads (and compiles, if need be) the archive of an import path. */
  class ImportContext {
    var packages: map<string, Package>
    const importArchive: string -> Result<Archive, Error>

    constructor (packages: map<string, Package>, importArchive: string -> Result<Archive, Error>)
      ensures this.packages == packages && this.importArchive == importArchive
    {
      this.packages := packages;
      this.importArchive := importArchive;
    }
  }

  /** The shared cell after importing path: an error already recorded stays, a
      failure is recorded only when none was. */
  function RecordFailure(cell: Option<Error>, path: string, importArchive: string -> Result<Archive, Error>): Option<Error>
  {
    if path == "unsafe" || cell.Some? then cell
    else match importArchive(path)
      case Failure(e) => Some(e)
      case Success(_) => None
  }

  class PackageImporter {
    const importContext: ImportContext
    const importError: ErrorCell

    constructor (importContext: ImportContext, importError: ErrorCell)
      ensures this.importContext == importContext && this.importError == importError
    {
      this.importContext := importContext;
      this.importError := importError;
    }

    /** Import: `unsafe` is answered directly; otherwise the archive is loaded,
        a failure is returned and recorded if it is the first, and on success
        the package registered under the archive's import path is returned
        (nil when none is). */
    method Import(path: string) returns (pkg: Option<Package>, err: Option<Error>)
      modifies importError
      ensures path == "unsafe" ==> pkg == Some(UnsafePackage) && err == None
      ensures path != "unsafe" ==>
        match importContext.importArchive(path)
        case Failure(e) => pkg == None && err == Some(e)
        case Success(a) => pkg == Lookup(importContext.packages, a.importPath) && err == None
      ensures importError.err == RecordFailure(old(importError.err), path, importContext.importArchive)
    {
      if path == "unsafe" {
        return Some(UnsafePackage), None;
      }
      var a := importContext.importArchive(path);
      if a.Failure? {
        if importError.err == None {
          importError.err := Some(a.error);
        }
        return None, Some(a.error);
      }
      pkg := Lookup(importContext.packages, a.value.importPath);
      err := None;
    }
  }

  /** The shared cell after the type checker imported the paths in order. */
  function CellAfter(cell: Option<Error>, paths: seq<string>, importArchive: string -> Result<Archive, Error>): Option<Error>
    decreases |paths|
  {
    if paths == [] then cell
    else CellAfter(RecordFailure(cell, paths[0], importArchive), paths[1..], importArchive)
  }

  /** The error of the first path in the list whose import fails (`unsafe` never does). */
  function FirstFailure(paths: seq<string>, importArchive: string -> Result<Archive, Error>): (r: Option<Error>)
    ensures r.Some? ==> exists k :: 0 <= k < |paths| && paths[k] != "unsafe" && importArchive(paths[k]) == Failure(r.value)
    decreases |paths|
  {
    if paths == [] then None
    else if paths[0] != "unsafe" && importArchive(paths[0]).Failure? then Some(importArchive(paths[0]).error)
    else
      var r := FirstFailure(paths[1..], importArchive);
      assert r.Some? ==> exists k :: 0 <= k < |paths[1..]| && paths[1..][k] != "unsafe" && importArchive(paths[1..][k]) == Failure(r.value);
      r
  }

  /** Once an error is recorded, no later import changes it. */
  lemma {:induction false} RecordedErrorIsKept(e: Error, paths: seq<string>, importArchive: string -> Result<Archive, Error>)
    ensures CellAfter(Some(e), paths, importArchive) == Some(e)
    decreases |paths|
  {
    if paths != [] {
      RecordedErrorIsKept(e, paths[1..], importArchive);
    }
  }

  /** First error wins: starting from nil, the cell ends holding the error of
      the first failing import, and stays nil when every import succeeds. */
  lemma {:induction false} FirstErrorWins(paths: seq<string>, importArchive: string -> Result<Archive, Error>)
    ensures CellAfter(None, paths, importArchive) == FirstFailure(paths, importArchive)
    decreases |paths|
  {
    if paths != [] {
      var cell := RecordFailure(None, paths[0], importArchive);
      if cell.Some? {
        RecordedErrorIsKept(cell.value, paths[1..], importArchive);
      } else {
        FirstErrorWins(paths[1..], importArchive);
      }
    }
  }
}
