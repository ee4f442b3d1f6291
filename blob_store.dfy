/**
 * The object store the coordinator writes avatar images to
 * (internal/clients/r2_client.go), reduced to what the coordinator relies
 * on: objects keyed by `avatars/<guid>`, uploads and deletes that may fail,
 * and presigned read URLs. The S3 SDK and the network are left outside;
 * each call fails or succeeds nondeterministically.
 */
module BlobStore {
  import opened Wrappers
  import opened Bytes
  import opened Journal

  /** An uploaded object: the body, its content type and its declared length. */
  datatype StoredObject = StoredObject(body: seq<byte>, contentType: string, contentLength: int)

  /** A presigned GET URL, identified by the object it reads and its lifetime in seconds. */
  datatype PresignedURL = PresignedURL(objectKey: string, expiresIn: int)

  datatype R2Error = UploadFailed | PresignFailed | DeleteFailed

  const ObjectPrefix := "avatars/"

  /** The object key of an avatar. */
  function ObjectKey(guid: string): (key: string)
    ensures ObjectPrefix <= key && key[|ObjectPrefix|..] == guid
  {
    ObjectPrefix + guid
  }

  /** Distinct avatars live under distinct object keys. */
  lemma ObjectKeyInjective(g1: string, g2: string)
    ensures ObjectKey(g1) == ObjectKey(g2) ==> g1 == g2
  {
    if ObjectKey(g1) == ObjectKey(g2) {
      assert g1 == ObjectKey(g1)[|ObjectPrefix|..];
    }
  }

  /** One URL signing the client did, with its answer. */
  datatype Signing = Signing(guid: string, expiresIn: int, answer: Result<PresignedURL, R2Error>)

  class R2Client {
    /** The bucket: object key to object. */
    var objects: map<string, StoredObject>
    ghost const journal: Journal
    /** The URL signings done through this client, in order. */
    ghost var signings: seq<Signing>

    /** A client on a bucket that already holds `objects`. */
    constructor (journal: Journal, objects: map<string, StoredObject>)
      ensures this.journal == journal && this.objects == objects && signings == []
    {
      this.journal := journal;
      this.objects := objects;
      this.signings := [];
    }

    /** `UploadAvatar`: puts the object, or fails and leaves the bucket as it was. */
    method UploadAvatar(guid: string, file: seq<byte>, contentType: string, size: int) returns (err: Outcome<R2Error>)
      modifies this, journal
      ensures signings == old(signings)
      ensures journal.effects == old(journal.effects) + [PutObject(ObjectKey(guid))]
      ensures err.Pass? ==> objects == old(objects)[ObjectKey(guid) := StoredObject(file, contentType, size)]
      ensures err.Fail? ==> err.error == UploadFailed && objects == old(objects)
    {
      var key := ObjectKey(guid);
      journal.effects := journal.effects + [PutObject(key)];
      var failed: bool := *;
      if failed {
        return Fail(UploadFailed);
      }
      objects := objects[key := StoredObject(file, contentType, size)];
      err := Pass;
    }

    /**
     * `GetAvatarPresignedURL`: a URL for the avatar's object with the given
     * lifetime. Signing is local and does not check that the object exists.
     */
    method GetAvatarPresignedURL(guid: string, expiresIn: int) returns (r: Result<PresignedURL, R2Error>)
      modifies this
      ensures objects == old(objects) && signings == old(signings) + [Signing(guid, expiresIn, r)]
      ensures r.Success? ==> r.value == PresignedURL(ObjectKey(guid), expiresIn)
      ensures r.Failure? ==> r.error == PresignFailed
    {
      var failed: bool := *;
      if failed {
        r := Failure(PresignFailed);
      } else {
        r := Success(PresignedURL(ObjectKey(guid), expiresIn));
      }
      signings := signings + [Signing(guid, expiresIn, r)];
    }

    /** `DeleteAvatar`: removes the object (deleting an absent object succeeds), or fails and changes nothing. */
    method DeleteAvatar(guid: string) returns (err: Outcome<R2Error>)
      modifies this, journal
      ensures signings == old(signings)
      ensures journal.effects == old(journal.effects) + [DeleteObject(ObjectKey(guid))]
      ensures err.Pass? ==> objects == old(objects) - {ObjectKey(guid)}
      ensures err.Fail? ==> err.error == DeleteFailed && objects == old(objects)
    {
      var key := ObjectKey(guid);
      journal.effects := journal.effects + [DeleteObject(key)];
      var failed: bool := *;
      if failed {
        return Fail(DeleteFailed);
      }
      objects := objects - {key};
      err := Pass;
    }
  }
}
