/** The filesystem blob store: content is written beside its final name and renamed into
    place, and a failed write is cleaned up. */
module BlobStore {
  import opened Collections
  import opened Envelopes

  type Bytes = seq<nat>

  datatype BlobError = TooLarge | InvalidKey | DirectoryFailed | WriteFailed | NotFound

  /** Where the disk fails during one write, and whether the cleanup then fails too. */
  datatype Fault =
    | MakingDirectory
    | Writing(partial: Option<Bytes>, cleanupFails: bool)   // None: the temporary file was not created
    | Renaming(cleanupFails: bool)

  type Files = map<string, Bytes>

  function TempName(key: string): string {
    key + ".tmp"
  }

  /** What a reader of `key` gets. */
  function Content(files: Files, key: string): Option<Bytes> {
    if key in files then Some(files[key]) else None
  }

  class LocalFilesystemBlobStore {
    var files: Files
    ghost var states: seq<Files>     // every state the disk has been in

    constructor ()
      ensures files == map[] && states == []
    {
      files := map[];
      states := [];
    }

    method SetFiles(next: Files)
      modifies this
      ensures files == next && states == old(states) + [next]
    {
      files := next;
      states := states + [next];
    }

    /** `fault` is None when the disk does not fail. */
    method Put(key: string, content: Bytes, maxBytes: nat, fault: Option<Fault>, sha256: Bytes -> string)
      returns (result: Result<string, BlobError>)
      modifies this
      ensures result == if |content| > maxBytes then Err(TooLarge)
                        else if !ValidateKey(key) then Err(InvalidKey)
                        else if fault == Some(MakingDirectory) then Err(DirectoryFailed)
                        else if fault.Some? then Err(WriteFailed)
                        else Ok(sha256(content))
      ensures OnlyAdvances(old(files), files, key, content, result.Ok?)
      ensures result.Ok? ==> files == (old(files) - {TempName(key)})[key := content]
      ensures result == Err(WriteFailed) ==>
                if CleanupFails(fault) then files - {TempName(key)} == old(files) - {TempName(key)}
                else files == old(files) - {TempName(key)}
      ensures result.Err? && result != Err(WriteFailed) ==> files == old(files) && states == old(states)
      ensures |old(states)| <= |states| && states[..|old(states)|] == old(states)
      ensures forall i :: |old(states)| <= i < |states| ==> NeverTorn(old(files), states[i], key, content)
    {
      if |content| > maxBytes { return Err(TooLarge); }
      if !ValidateKey(key) { return Err(InvalidKey); }
      if fault == Some(MakingDirectory) { return Err(DirectoryFailed); }
      TempNamesAreNoKeys(key);
      var temp := TempName(key);
      if fault.Some? && fault.value.Writing? {
        if fault.value.partial.Some? { SetFiles(files[temp := fault.value.partial.value]); }
        if !fault.value.cleanupFails { SetFiles(files - {temp}); }
        return Err(WriteFailed);
      }
      SetFiles(files[temp := content]);
      if fault.Some? {
        if !fault.value.cleanupFails { SetFiles(files - {temp}); }
        return Err(WriteFailed);
      }
      SetFiles((files - {temp})[key := content]);
      return Ok(sha256(content));
    }

    method Get(key: string) returns (result: Result<Bytes, BlobError>)
      ensures result == if !ValidateKey(key) then Err(InvalidKey)
                        else match Content(files, key) case Some(c) => Ok(c) case None => Err(NotFound)
    {
      if !ValidateKey(key) { return Err(InvalidKey); }
      if key !in files { return Err(NotFound); }
      return Ok(files[key]);
    }

    method Delete(key: string) returns (result: Result<(), BlobError>)
      modifies this
      ensures result == if ValidateKey(key) then Ok(()) else Err(InvalidKey)
      ensures files == if ValidateKey(key) then old(files) - {key} else old(files)
    {
      if !ValidateKey(key) { return Err(InvalidKey); }
      SetFiles(files - {key});
      return Ok(());
    }
  }

  predicate CleanupFails(fault: Option<Fault>) {
    fault.Some? && !fault.value.MakingDirectory? && fault.value.cleanupFails
  }

  /** Under every valid key: the new content under `key` if the write succeeded, and the old
      content everywhere else. */
  ghost predicate OnlyAdvances(files: Files, files': Files, key: string, content: Bytes, written: bool) {
    forall k :: ValidateKey(k) ==> Content(files', k) == if k == key && written then Some(content) else Content(files, k)
  }

  /** At whatever point a crash stops the write, a reader of any valid key sees its old
      content, or all of the new one; never a part. */
  ghost predicate NeverTorn(files: Files, now: Files, key: string, content: Bytes) {
    forall k :: ValidateKey(k) ==> Content(now, k) == Content(files, k) || (k == key && Content(now, k) == Some(content))
  }

  /** No valid key is the temporary name of another: a dot is not a key character. */
  lemma TempNamesAreNoKeys(key: string)
    requires ValidateKey(key)
    ensures !ValidateKey(TempName(key))
  {
    assert |TempName(key)| >= 151;
  }
}
