/** Content-addressed blob storage. */
module Storage {
  import opened Foundation
  import opened Documents

  type Blobs = map<PsbtHash, Blob>

  datatype BlobFetchError = Missing(hash: PsbtHash) | Corrupted(hash: PsbtHash)

  function Fetch(blobs: Blobs, hash: PsbtHash): Result<Blob, BlobFetchError> {
    if hash !in blobs then Failure(Missing(hash))
    else if Sha256(blobs[hash]) != hash then Failure(Corrupted(hash))
    else Success(blobs[hash])
  }

  /** A fetch gives the bytes at the address if they are there and digest to it, and
      otherwise says which of the two failed. */
  lemma FetchMeaning(blobs: Blobs, hash: PsbtHash)
    ensures Fetch(blobs, hash).Success? <==> hash in blobs && hash == Sha256(blobs[hash])
    ensures Fetch(blobs, hash).Success? ==> hash == Sha256(Fetch(blobs, hash).value)
    ensures Fetch(blobs, hash) == Failure(Missing(hash)) <==> hash !in blobs
    ensures Fetch(blobs, hash) == Failure(Corrupted(hash)) <==> hash in blobs && hash != Sha256(blobs[hash])
  {
  }

  class BlobStore {
    var blobs: Blobs

    constructor ()
      ensures blobs == map[]
    {
      blobs := map[];
    }

    method Put(content: Blob) returns (hash: PsbtHash)
      modifies this
      ensures hash == Sha256(content) && blobs == old(blobs)[hash := content]
    {
      hash := Sha256(content);
      blobs := blobs[hash := content];
    }

    method Get(hash: PsbtHash) returns (content: Option<Blob>)
      ensures content == if hash in blobs then Some(blobs[hash]) else None
    {
      content := if hash in blobs then Some(blobs[hash]) else None;
    }

    method Delete(hash: PsbtHash) returns (removed: bool)
      modifies this
      ensures removed == (hash in old(blobs)) && blobs == old(blobs) - {hash}
    {
      removed := hash in blobs;
      blobs := blobs - {hash};
    }

    method FetchVerified(hash: PsbtHash) returns (r: Result<Blob, BlobFetchError>)
      ensures r == Fetch(blobs, hash)
    {
      var content := Get(hash);
      match content {
        case None => r := Failure(Missing(hash));
        case Some(b) => r := if Sha256(b) != hash then Failure(Corrupted(hash)) else Success(b);
      }
    }
  }

  /** Fetching what was put gives it back, whatever was stored there before, and
      no blob that could be fetched is ever disturbed by a put. */
  lemma PutThenFetch(blobs: Blobs, content: Blob, hash: PsbtHash)
    ensures Fetch(blobs[Sha256(content) := content], Sha256(content)) == Success(content)
    ensures Fetch(blobs, hash).Success? ==> Fetch(blobs[Sha256(content) := content], hash) == Fetch(blobs, hash)
  {
  }

  /** A verified fetch is determined by the address alone: two stores can only
      agree or fail. */
  lemma FetchIsSelfVerifying(a: Blobs, b: Blobs, hash: PsbtHash)
    requires Fetch(a, hash).Success? && Fetch(b, hash).Success?
    ensures Fetch(a, hash) == Fetch(b, hash)
  {
  }
}
