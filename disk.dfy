/**
 * The filesystem as the HTTP watcher sees it: file contents by path. Whether
 * a read or a write fails (a missing parent directory, no permission, a full
 * disk, an I/O error) is an input of each call, so every failure pattern, and
 * any change of it from one call to the next, is covered.
 */
module Disk {
  import opened Wrappers
  import opened Common

  /**
   * How `ioutil.WriteFile` can fail. It opens the file with O_CREATE|O_TRUNC,
   * writes, and closes. `OpenFailed`: the open fails and nothing changes.
   * `Torn(kept)`: the open succeeded, so the file exists and was truncated,
   * and the write or the close failed after `kept` bytes reached the disk
   * (a `kept` at least the data's length is a failed close after a full write).
   */
  datatype WriteFault = OpenFailed | Torn(kept: nat)

  /** After a failed write of `data` to `p`: `p` is as it was or holds a prefix of `data`, and no other path changed. */
  predicate UnchangedOrPrefix(before: map<Path, Bytes>, after: map<Path, Bytes>, p: Path, data: Bytes) {
    after == before || (p in after && after[p] <= data && after == before[p := after[p]])
  }

  /** The files after writing `data` to `p`, with the given outcome. */
  function AfterWrite(files: map<Path, Bytes>, p: Path, data: Bytes, fault: Option<WriteFault>): (r: map<Path, Bytes>)
    ensures fault.None? ==> p in r && r[p] == data
    ensures fault.Some? ==> UnchangedOrPrefix(files, r, p, data)
    ensures fault == Some(OpenFailed) ==> r == files
    ensures forall q :: q != p ==> (q in r <==> q in files) && (q in files ==> r[q] == files[q])
  {
    match fault
    case None => files[p := data]
    case Some(OpenFailed) => files
    case Some(Torn(kept)) => files[p := data[..if kept < |data| then kept else |data|]]
  }

  class FileSystem {
    var files: map<Path, Bytes>

    constructor (files: map<Path, Bytes>)
      ensures this.files == files
    {
      this.files := files;
    }

    /** `os.Stat` succeeds exactly for existing paths. */
    method Stat(p: Path) returns (ok: bool)
      ensures ok <==> p in files
    {
      ok := p in files;
    }

    /** `ioutil.ReadFile`: the content of an existing path, unless this read fails. */
    method ReadFile(p: Path, fails: bool) returns (r: Option<Bytes>)
      ensures r.Some? <==> p in files && !fails
      ensures r.Some? ==> r.value == files[p]
    {
      if p in files && !fails {
        r := Some(files[p]);
      } else {
        r := None;
      }
    }

    /**
     * `ioutil.WriteFile`: replaces the content of `p` when no fault occurs;
     * on a fault reports the path and leaves `p` unchanged or holding a
     * prefix of `data`.
     */
    method WriteFile(p: Path, data: Bytes, fault: Option<WriteFault>) returns (err: Option<Error>)
      modifies this
      ensures err.Some? <==> fault.Some?
      ensures err.Some? ==> err.value == WriteFailed(p)
      ensures files == AfterWrite(old(files), p, data, fault)
    {
      files := AfterWrite(files, p, data, fault);
      err := if fault.Some? then Some(WriteFailed(p)) else None;
    }
  }
}
