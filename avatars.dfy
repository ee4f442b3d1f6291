/**
 * The avatar lifecycle coordinator (internal/services/avatar_service.go).
 * It writes an image to the object store and two records to the key-value
 * store (the avatar's metadata and the user's current-avatar mapping), reads
 * the mapping back to hand out presigned URLs, and deletes the three again.
 * The stores are the two clients' maps; every call to them may fail, and the
 * shared journal records the order of the state-changing calls.
 */
module Avatars {
  import opened Wrappers
  import opened Bytes
  import opened Journal
  import opened BlobStore
  import opened KeyValue

  /** Lifetime, in seconds, of every URL the coordinator hands out. */
  const URLLifetime := 3600

  /** The content type used when an upload does not name one. */
  const DefaultContentType := "application/octet-stream"

  /**
   * The content type the HTTP layer passes to `AddAvatar`: the one the
   * upload names, or the default when it names none.
   */
  function UploadContentType(header: string): (contentType: string)
    ensures contentType != []
    ensures header != [] ==> contentType == header
    ensures header == [] ==> contentType == DefaultContentType
  {
    if header == [] then DefaultContentType else header
  }

  datatype ServiceError =
    | UploadError(blobError: R2Error)             // "failed to upload avatar: ..."
    | MetadataWriteFailed(kvError: RedisError)    // "failed to save metadata: ..."
    | MappingWriteFailed(kvError: RedisError)     // "failed to save username mapping: ..."
    | LookupFailed(kvError: RedisError)           // the key-value error, passed on unchanged
    | URLFailed(blobError: R2Error)               // "failed to generate avatar URL: ..."
    | AvatarNotFound(username: string)            // "avatar not found for username: <name>"
    | BlobDeleteFailed(blobError: R2Error)        // "failed to delete avatar from R2: ..."

  /**
   * A guid no stored state mentions yet: no object, no metadata and no
   * mapping names it. This is what a fresh `uuid.New()` is relied on for.
   */
  predicate FreshFor(objects: map<string, StoredObject>, kv: map<string, Value>, guid: string)
  {
    && ObjectKey(guid) !in objects
    && AvatarKey(guid) !in kv
    && forall v :: v in kv.Values ==> AsText(v) != guid
  }

  /** A bound strictly above the length of every string in `strings`. */
  ghost function LengthBound(strings: set<string>): (n: nat)
    ensures forall s :: s in strings ==> |s| < n
    decreases |strings|
  {
    if strings == {} then 0
    else
      var s :| s in strings;
      var rest := LengthBound(strings - {s});
      if |s| < rest then rest else |s| + 1
  }

  /** A string of `n` letters. */
  function Letters(n: nat): (s: string)
    ensures |s| == n
  {
    if n == 0 then [] else Letters(n - 1) + ['a']
  }

  /** However much is stored, a fresh guid exists (one longer than every stored key and value). */
  lemma FreshGuidExists(objects: map<string, StoredObject>, kv: map<string, Value>)
    ensures exists guid :: FreshFor(objects, kv, guid)
  {
    var texts := set v | v in kv.Values :: AsText(v);
    var n := LengthBound(objects.Keys + kv.Keys + texts);
    var guid := Letters(n);
    assert |ObjectKey(guid)| > n && |AvatarKey(guid)| > n;
    forall v | v in kv.Values ensures AsText(v) != guid {
      assert AsText(v) in texts;
    }
    assert FreshFor(objects, kv, guid);
  }

  /** A fresh guid has no metadata, and no user's mapping resolves to it. */
  lemma FreshGuidUnused(objects: map<string, StoredObject>, kv: map<string, Value>, guid: string)
    requires FreshFor(objects, kv, guid)
    ensures LookupMetadata(kv, guid) == Failure(MetadataNotFound(guid))
    ensures forall u :: LookupGUID(kv, u) != Success(guid)
  {
    forall u ensures LookupGUID(kv, u) != Success(guid) {
      if UsernameKey(u) in kv {
        assert kv[UsernameKey(u)] in kv.Values;
      }
    }
  }

  /** The presigned URL `GetAvatarByUsername` promises for a user, if the user has a mapping. */
  function AvatarURLOf(kv: map<string, Value>, username: string): (url: Option<PresignedURL>)
    ensures url.Some? <==> UsernameKey(username) in kv
    ensures url.Some? ==> url.value == PresignedURL(ObjectKey(LookupGUID(kv, username).value), URLLifetime)
  {
    match LookupGUID(kv, username)
    case Success(guid) => Some(PresignedURL(ObjectKey(guid), URLLifetime))
    case Failure(_) => None
  }

  /**
   * What a completed `AddAvatar` leaves behind: the new guid's object,
   * metadata and mapping are in place, no other user's mapping moved, and
   * every other avatar (the user's previous one included) keeps its object
   * and metadata.
   */
  lemma AddedAvatarResolves(objects: map<string, StoredObject>, kv: map<string, Value>, username: string,
                            obj: StoredObject, m: AvatarMetadata)
    requires FreshFor(objects, kv, m.guid) && m.username == username
    ensures var objects', kv' := objects[ObjectKey(m.guid) := obj], kv[AvatarKey(m.guid) := Json(m)][UsernameKey(username) := Text(m.guid)];
      && LookupGUID(kv', username) == Success(m.guid)
      && AvatarURLOf(kv', username) == Some(PresignedURL(ObjectKey(m.guid), URLLifetime))
      && LookupMetadata(kv', m.guid) == Success(m)
      && objects'[ObjectKey(m.guid)] == obj
      && (forall u :: u != username ==> LookupGUID(kv', u) == LookupGUID(kv, u))
      && (forall g :: g != m.guid ==> LookupMetadata(kv', g) == LookupMetadata(kv, g))
      && (forall g :: g != m.guid ==> (ObjectKey(g) in objects' <==> ObjectKey(g) in objects))
  {
    var kv1 := kv[AvatarKey(m.guid) := Json(m)];
    SetMetadataThenLookup(kv, m);
    SetMappingThenLookup(kv1, username, m.guid);
    forall g | g != m.guid
      ensures ObjectKey(g) in objects[ObjectKey(m.guid) := obj] <==> ObjectKey(g) in objects
    {
      ObjectKeyInjective(g, m.guid);
    }
  }

  /**
   * A completed `AddAvatar` does not retire the user's previous avatar:
   * the old guid keeps its object and its metadata; only the mapping moves.
   */
  lemma OldAvatarNotRetired(objects: map<string, StoredObject>, kv: map<string, Value>, username: string,
                            obj: StoredObject, m: AvatarMetadata, oldGuid: string)
    requires FreshFor(objects, kv, m.guid) && m.username == username
    requires LookupGUID(kv, username) == Success(oldGuid)
    ensures var objects', kv' := objects[ObjectKey(m.guid) := obj], kv[AvatarKey(m.guid) := Json(m)][UsernameKey(username) := Text(m.guid)];
      && oldGuid != m.guid
      && (ObjectKey(oldGuid) in objects' <==> ObjectKey(oldGuid) in objects)
      && LookupMetadata(kv', oldGuid) == LookupMetadata(kv, oldGuid)
  {
    FreshGuidUnused(objects, kv, m.guid);
    AddedAvatarResolves(objects, kv, username, obj, m);
  }

  /**
   * What an `AddAvatar` that failed after the upload leaves behind: at most
   * an orphaned object and orphaned metadata for the new guid, which no user
   * resolves to; every mapping and every other avatar are as before.
   */
  lemma FailedAddLeavesNoTrace(objects: map<string, StoredObject>, kv: map<string, Value>, obj: StoredObject,
                               m: AvatarMetadata, objects': map<string, StoredObject>, kv': map<string, Value>)
    requires FreshFor(objects, kv, m.guid)
    requires objects' == objects || objects' == objects[ObjectKey(m.guid) := obj]
    requires kv' == kv || kv' == kv[AvatarKey(m.guid) := Json(m)]
    ensures forall u :: LookupGUID(kv', u) == LookupGUID(kv, u) && LookupGUID(kv', u) != Success(m.guid)
    ensures forall g :: g != m.guid ==> LookupMetadata(kv', g) == LookupMetadata(kv, g)
    ensures forall g :: g != m.guid ==> (ObjectKey(g) in objects' <==> ObjectKey(g) in objects)
  {
    FreshGuidUnused(objects, kv, m.guid);
    SetMetadataThenLookup(kv, m);
    forall g | g != m.guid
      ensures ObjectKey(g) in objects' <==> ObjectKey(g) in objects
    {
      ObjectKeyInjective(g, m.guid);
    }
  }

  /**
   * The state the coordinator keeps the two stores in: an avatar has its
   * object exactly when it has its metadata, every user's mapping names an
   * avatar whose metadata exists, and no two users map to the same avatar.
   */
  ghost predicate Consistent(objects: map<string, StoredObject>, kv: map<string, Value>)
  {
    && (forall g :: ObjectKey(g) in objects <==> AvatarKey(g) in kv)
    && (forall u :: LookupGUID(kv, u).Success? ==> AvatarKey(LookupGUID(kv, u).value) in kv)
    && (forall u1, u2 :: LookupGUID(kv, u1).Success? && LookupGUID(kv, u1) == LookupGUID(kv, u2) ==> u1 == u2)
  }

  /** A completed `AddAvatar` keeps the stores consistent. */
  lemma AddPreservesConsistency(objects: map<string, StoredObject>, kv: map<string, Value>, username: string,
                                obj: StoredObject, m: AvatarMetadata)
    requires Consistent(objects, kv)
    requires FreshFor(objects, kv, m.guid) && m.username == username
    ensures Consistent(objects[ObjectKey(m.guid) := obj], kv[AvatarKey(m.guid) := Json(m)][UsernameKey(username) := Text(m.guid)])
  {
    var objects', kv' := objects[ObjectKey(m.guid) := obj], kv[AvatarKey(m.guid) := Json(m)][UsernameKey(username) := Text(m.guid)];
    AddedAvatarResolves(objects, kv, username, obj, m);
    FreshGuidUnused(objects, kv, m.guid);
    forall g ensures ObjectKey(g) in objects' <==> AvatarKey(g) in kv' {
      AvatarKeyInjective(g, m.guid);
      KeySpacesDisjoint(username, g);
    }
    forall u | LookupGUID(kv', u).Success? ensures AvatarKey(LookupGUID(kv', u).value) in kv' {
      KeySpacesDisjoint(username, LookupGUID(kv', u).value);
    }
  }

  /**
   * A `DeleteMyAvatar` whose three deletes all succeed keeps the stores
   * consistent: the avatar's object, metadata and the one mapping to it go
   * together.
   */
  lemma DeletePreservesConsistency(objects: map<string, StoredObject>, kv: map<string, Value>, username: string, guid: string)
    requires Consistent(objects, kv)
    requires LookupGUID(kv, username) == Success(guid)
    ensures Consistent(objects - {ObjectKey(guid)}, kv - {AvatarKey(guid)} - {UsernameKey(username)})
  {
    var objects', kv1 := objects - {ObjectKey(guid)}, kv - {AvatarKey(guid)};
    var kv' := kv1 - {UsernameKey(username)};
    DeleteMetadataThenLookup(kv, guid);
    DeleteMappingThenLookup(kv1, username);
    forall g ensures ObjectKey(g) in objects' <==> AvatarKey(g) in kv' {
      AvatarKeyInjective(g, guid);
      ObjectKeyInjective(g, guid);
      KeySpacesDisjoint(username, g);
    }
    forall u | LookupGUID(kv', u).Success? ensures AvatarKey(LookupGUID(kv', u).value) in kv' {
      var g := LookupGUID(kv', u).value;
      assert u != username && LookupGUID(kv, u) == Success(g);
      AvatarKeyInjective(g, guid);
      KeySpacesDisjoint(username, g);
    }
  }

  /**
   * The calls one avatar read makes: one mapping read of the user, then,
   * only if it found a guid, one signing for that guid with the one-hour
   * lifetime; the answer is the read's error, the signing's error or the
   * signed URL.
   */
  ghost predicate ReadOneAvatar(username: string, lookupsBefore: seq<Lookup>, lookupsAfter: seq<Lookup>,
                                signingsBefore: seq<Signing>, signingsAfter: seq<Signing>,
                                r: Result<PresignedURL, ServiceError>)
  {
    && |lookupsAfter| == |lookupsBefore| + 1 && lookupsAfter[..|lookupsBefore|] == lookupsBefore
    && lookupsAfter[|lookupsBefore|].username == username
    && var found := lookupsAfter[|lookupsBefore|].answer;
    && (found.Failure? ==> r == Failure(LookupFailed(found.error)) && signingsAfter == signingsBefore)
    && (found.Success? ==>
          && |signingsAfter| == |signingsBefore| + 1 && signingsAfter[..|signingsBefore|] == signingsBefore
          && var signed := signingsAfter[|signingsBefore|];
          && signed.guid == found.value && signed.expiresIn == URLLifetime
          && (signed.answer.Failure? ==> r == Failure(URLFailed(signed.answer.error)))
          && (signed.answer.Success? ==> r == Success(signed.answer.value)))
  }

  /** `order` lists every element of `keys` exactly once. */
  ghost predicate Enumerates(order: seq<string>, keys: set<string>)
  {
    && (forall u :: u in order <==> u in keys)
    && (forall i, j :: 0 <= i < j < |order| ==> order[i] != order[j])
  }

  /** The signings of a batch: the users in `order`, each for its guid with the one-hour lifetime. */
  function SigningsOf(order: seq<string>, guids: map<string, string>, presigns: map<string, Result<PresignedURL, R2Error>>)
    : (log: seq<Signing>)
    requires forall u :: u in order ==> u in guids && u in presigns
    ensures |log| == |order|
    ensures forall i :: 0 <= i < |order| ==> log[i] == Signing(guids[order[i]], URLLifetime, presigns[order[i]])
  {
    seq(|order|, i requires 0 <= i < |order| => Signing(guids[order[i]], URLLifetime, presigns[order[i]]))
  }

  /** Signing one more user, not signed before, appends its signing. */
  lemma SigningsOfStep(order: seq<string>, guids: map<string, string>, presigns: map<string, Result<PresignedURL, R2Error>>,
                       username: string, answer: Result<PresignedURL, R2Error>)
    requires forall u :: u in order ==> u in guids && u in presigns
    requires username in guids && username !in order
    ensures SigningsOf(order + [username], guids, presigns[username := answer]) ==
            SigningsOf(order, guids, presigns) + [Signing(guids[username], URLLifetime, answer)]
  {
    var longer := SigningsOf(order + [username], guids, presigns[username := answer]);
    forall i | 0 <= i < |order| ensures longer[i] == SigningsOf(order, guids, presigns)[i] {
      assert (order + [username])[i] == order[i] != username;
    }
    assert longer[|order|] == Signing(guids[username], URLLifetime, answer);
  }

  class AvatarService {
    const r2: R2Client
    const redis: RedisClient
    ghost const journal: Journal

    /** Both clients record their state-changing calls in the service's journal. */
    ghost predicate Valid()
    {
      r2.journal == journal && redis.journal == journal
    }

    /** `NewAvatarService`. */
    constructor (r2: R2Client, redis: RedisClient)
      requires r2.journal == redis.journal
      ensures this.r2 == r2 && this.redis == redis && Valid()
    {
      this.r2 := r2;
      this.redis := redis;
      this.journal := r2.journal;
    }

    /** `uuid.New()`: some guid the stores do not mention yet. */
    method NewGuid() returns (guid: string)
      ensures FreshFor(r2.objects, redis.kv, guid)
    {
      FreshGuidExists(r2.objects, redis.kv);
      guid :| FreshFor(r2.objects, redis.kv, guid);
    }

    /**
     * `AddAvatar`: uploads the image under a fresh guid, stores its metadata,
     * then points the user's mapping at it. A failed metadata write is undone
     * by one object delete; a failed mapping write by a metadata delete and
     * then an object delete, whose own failures are ignored. `now` is the
     * upload time (`time.Now()`).
     */
    method AddAvatar(username: string, file: seq<byte>, filename: string, contentType: string, size: int, now: int)
      returns (r: Result<string, ServiceError>, ghost guid: string)
      requires Valid()
      requires contentType != []
      modifies r2, redis, journal
      ensures old(FreshFor(r2.objects, redis.kv, guid))
      ensures redis.lookups == old(redis.lookups) && r2.signings == old(r2.signings)
      ensures r.Success? ==> r.value == guid
      // the sequence of state-changing calls, by outcome
      ensures var put, setMeta, setMap := PutObject(ObjectKey(guid)), SetKey(AvatarKey(guid)), SetKey(UsernameKey(username));
        var delMeta, delObj := DelKey(AvatarKey(guid)), DeleteObject(ObjectKey(guid));
        journal.effects == old(journal.effects) +
          match r
          case Success(_) => [put, setMeta, setMap]
          case Failure(UploadError(_)) => [put]
          case Failure(MetadataWriteFailed(_)) => [put, setMeta, delObj]
          case Failure(_) => [put, setMeta, setMap, delMeta, delObj]
      ensures r.Failure? ==> r.error.UploadError? || r.error.MetadataWriteFailed? || r.error.MappingWriteFailed?
      // the new state, by outcome
      ensures var obj := StoredObject(file, contentType, size);
        var m := AvatarMetadata(guid, username, filename, size, contentType, now);
        && (r.Success? ==>
              && r2.objects == old(r2.objects)[ObjectKey(guid) := obj]
              && redis.kv == old(redis.kv)[AvatarKey(guid) := Json(m)][UsernameKey(username) := Text(guid)])
        && (r.Failure? && r.error.UploadError? ==>
              r2.objects == old(r2.objects) && redis.kv == old(redis.kv))
        && (r.Failure? && r.error.MetadataWriteFailed? ==>
              (r2.objects == old(r2.objects) || r2.objects == old(r2.objects)[ObjectKey(guid) := obj])
              && redis.kv == old(redis.kv))
        && (r.Failure? && r.error.MappingWriteFailed? ==>
              (r2.objects == old(r2.objects) || r2.objects == old(r2.objects)[ObjectKey(guid) := obj])
              && (redis.kv == old(redis.kv) || redis.kv == old(redis.kv)[AvatarKey(guid) := Json(m)]))
      // a completed upload keeps consistent stores consistent
      ensures old(Consistent(r2.objects, redis.kv)) && r.Success? ==> Consistent(r2.objects, redis.kv)
    {
      ghost var objects0, kv0 := r2.objects, redis.kv;
      var g := NewGuid();
      guid := g;
      var uploaded := r2.UploadAvatar(g, file, contentType, size);
      if uploaded.Fail? {
        return Failure(UploadError(uploaded.error)), g;
      }
      var metadata := AvatarMetadata(g, username, filename, size, contentType, now);
      var stored := redis.SetAvatarMetadata(metadata);
      if stored.Fail? {
        var ignored := r2.DeleteAvatar(g);
        return Failure(MetadataWriteFailed(stored.error)), g;
      }
      var mapped := redis.SetGUIDByUsername(username, g);
      if mapped.Fail? {
        var ignoredMeta := redis.DeleteAvatarMetadata(g);
        var ignoredObj := r2.DeleteAvatar(g);
        return Failure(MappingWriteFailed(mapped.error)), g;
      }
      if Consistent(objects0, kv0) {
        AddPreservesConsistency(objects0, kv0, username, StoredObject(file, contentType, size), metadata);
      }
      r := Success(g);
    }

    /**
     * `GetAvatarByUsername`: a presigned URL, valid for an hour, for the
     * user's mapped guid; the key-value error (the user has no mapping, or
     * the connection failed), or a signing error.
     */
    method GetAvatarByUsername(username: string) returns (r: Result<PresignedURL, ServiceError>)
      modifies redis, r2
      ensures redis.kv == old(redis.kv) && r2.objects == old(r2.objects)
      ensures ReadOneAvatar(username, old(redis.lookups), redis.lookups, old(r2.signings), r2.signings, r)
      ensures r.Success? ==> AvatarURLOf(redis.kv, username) == Some(r.value)
      ensures UsernameKey(username) !in redis.kv ==>
        r == Failure(LookupFailed(UsernameNotFound(username))) || r == Failure(LookupFailed(TransportFailed))
      ensures r.Failure? ==> r.error == LookupFailed(TransportFailed) || r.error == URLFailed(PresignFailed)
                             || (r.error == LookupFailed(UsernameNotFound(username)) && UsernameKey(username) !in redis.kv)
    {
      var guid := redis.GetGUIDByUsername(username);
      if guid.Failure? {
        return Failure(LookupFailed(guid.error));
      }
      var url := r2.GetAvatarPresignedURL(guid.value, URLLifetime);
      if url.Failure? {
        return Failure(URLFailed(url.error));
      }
      r := Success(url.value);
    }

    /**
     * `GetAvatarsByUsernames`: the URLs of the listed users' avatars. Users
     * without a mapping, and users whose lookup or signing failed, are left
     * out; the call itself never fails. The HTTP layer rejects an empty list
     * before calling it. `lookups` are the answers of the per-name reads,
     * `guids` the users they resolved, and `presigns` the signing answer for
     * each of those users, signed in the order `order`.
     */
    method GetAvatarsByUsernames(usernames: seq<string>)
      returns (r: Result<map<string, PresignedURL>, ServiceError>,
               ghost lookups: seq<Result<string, RedisError>>,
               ghost guids: map<string, string>,
               ghost presigns: map<string, Result<PresignedURL, R2Error>>,
               ghost order: seq<string>)
      requires |usernames| > 0
      modifies redis, r2
      ensures r.Success?
      ensures redis.kv == old(redis.kv) && r2.objects == old(r2.objects)
      // one read per listed name, in list order
      ensures |lookups| == |usernames|
      ensures redis.lookups == old(redis.lookups) + LookupsOf(usernames, lookups)
      ensures forall i :: 0 <= i < |usernames| ==>
        lookups[i] == LookupGUID(redis.kv, usernames[i]) || lookups[i] == Failure(TransportFailed)
      // one signing per resolved user
      ensures guids.Keys == Resolved(usernames, lookups) && presigns.Keys == guids.Keys
      ensures forall u :: u in guids ==> LookupGUID(redis.kv, u) == Success(guids[u])
      ensures Enumerates(order, guids.Keys)
      ensures r2.signings == old(r2.signings) + SigningsOf(order, guids, presigns)
      ensures forall u :: u in presigns ==>
        AvatarURLOf(redis.kv, u).Some? &&
        (presigns[u] == Success(AvatarURLOf(redis.kv, u).value) || presigns[u] == Failure(PresignFailed))
      // the users whose signing succeeded
      ensures r.value.Keys == set u | u in presigns && presigns[u].Success?
      ensures forall u :: u in r.value ==> presigns[u] == Success(r.value[u]) && AvatarURLOf(redis.kv, u) == Some(r.value[u])
    {
      var found;
      found, lookups := redis.GetGUIDsByUsernames(usernames);
      // GetGUIDsByUsernames never reports an error, so there is no error branch to take here
      var guidMap := found.value;
      guids := guidMap;
      var result;
      result, presigns, order := PresignEach(guidMap);
      forall u | u in guidMap ensures AvatarURLOf(redis.kv, u) == Some(PresignedURL(ObjectKey(guidMap[u]), URLLifetime)) {
      }
      r := Success(result);
    }

    /**
     * The loop of `GetAvatarsByUsernames`: signs a URL for every mapped guid,
     * in the map's iteration order `order`, and keeps the users whose
     * signing succeeded. `presigns` are the signing answers, one per user.
     */
    method PresignEach(guidMap: map<string, string>)
      returns (result: map<string, PresignedURL>,
               ghost presigns: map<string, Result<PresignedURL, R2Error>>,
               ghost order: seq<string>)
      modifies r2
      ensures r2.objects == old(r2.objects)
      ensures presigns.Keys == guidMap.Keys
      ensures Enumerates(order, guidMap.Keys)
      ensures r2.signings == old(r2.signings) + SigningsOf(order, guidMap, presigns)
      ensures forall u :: u in presigns ==>
        presigns[u] == Success(PresignedURL(ObjectKey(guidMap[u]), URLLifetime)) || presigns[u] == Failure(PresignFailed)
      ensures result.Keys == set u | u in presigns && presigns[u].Success?
      ensures forall u :: u in result ==> presigns[u] == Success(result[u])
    {
      result := map[];
      presigns := map[];
      order := [];
      var remaining := guidMap.Keys;
      while remaining != {}
        invariant remaining <= guidMap.Keys
        invariant presigns.Keys == guidMap.Keys - remaining
        invariant Enumerates(order, guidMap.Keys - remaining)
        invariant r2.objects == old(r2.objects)
        invariant r2.signings == old(r2.signings) + SigningsOf(order, guidMap, presigns)
        invariant forall u :: u in presigns ==>
          presigns[u] == Success(PresignedURL(ObjectKey(guidMap[u]), URLLifetime)) || presigns[u] == Failure(PresignFailed)
        invariant result.Keys == set u | u in presigns && presigns[u].Success?
        invariant forall u :: u in result ==> presigns[u] == Success(result[u])
        decreases remaining
      {
        var username :| username in remaining;
        remaining := remaining - {username};
        var url := r2.GetAvatarPresignedURL(guidMap[username], URLLifetime);
        SigningsOfStep(order, guidMap, presigns, username, url);
        presigns := presigns[username := url];
        order := order + [username];
        if url.Failure? {
          continue;
        }
        result := result[username := url.value];
      }
    }

    /** `GetMyAvatar`: exactly `GetAvatarByUsername` for the authenticated user. */
    method GetMyAvatar(username: string) returns (r: Result<PresignedURL, ServiceError>)
      modifies redis, r2
      ensures redis.kv == old(redis.kv) && r2.objects == old(r2.objects)
      ensures ReadOneAvatar(username, old(redis.lookups), redis.lookups, old(r2.signings), r2.signings, r)
      ensures r.Success? ==> AvatarURLOf(redis.kv, username) == Some(r.value)
      ensures UsernameKey(username) !in redis.kv ==>
        r == Failure(LookupFailed(UsernameNotFound(username))) || r == Failure(LookupFailed(TransportFailed))
      ensures r.Failure? ==> r.error == LookupFailed(TransportFailed) || r.error == URLFailed(PresignFailed)
                             || (r.error == LookupFailed(UsernameNotFound(username)) && UsernameKey(username) !in redis.kv)
    {
      r := GetAvatarByUsername(username);
    }

    /**
     * `DeleteMyAvatar`: looks the user's guid up, deletes the object, then the
     * metadata, then the mapping. A failed lookup reports "avatar not found"
     * and a failed object delete is reported; failures of the two later
     * deletes are only logged, and the call still succeeds.
     */
    method DeleteMyAvatar(username: string) returns (err: Outcome<ServiceError>, ghost guid: string)
      requires Valid()
      modifies r2, redis, journal
      ensures err.Fail? ==> err.error == AvatarNotFound(username) || err.error == BlobDeleteFailed(DeleteFailed)
      // one mapping read of the user, and no signing
      ensures |redis.lookups| == |old(redis.lookups)| + 1 && old(redis.lookups) <= redis.lookups
      ensures redis.lookups[|old(redis.lookups)|].username == username
      ensures r2.signings == old(r2.signings)
      // that read answers the stored mapping or a transport error, and decides "avatar not found"
      ensures var found := redis.lookups[|old(redis.lookups)|].answer;
        && (found == old(LookupGUID(redis.kv, username)) || found == Failure(TransportFailed))
        && (err == Fail(AvatarNotFound(username)) <==> found.Failure?)
        && (found.Success? ==> found.value == guid)
      // a failed lookup changes nothing
      ensures err == Fail(AvatarNotFound(username)) ==>
        && journal.effects == old(journal.effects)
        && r2.objects == old(r2.objects) && redis.kv == old(redis.kv)
      ensures UsernameKey(username) !in old(redis.kv) ==> err == Fail(AvatarNotFound(username))
      // otherwise the lookup found `guid`
      ensures err != Fail(AvatarNotFound(username)) ==> old(LookupGUID(redis.kv, username)) == Success(guid)
      // a failed object delete leaves mapping and metadata in place
      ensures err == Fail(BlobDeleteFailed(DeleteFailed)) ==>
        && journal.effects == old(journal.effects) + [DeleteObject(ObjectKey(guid))]
        && r2.objects == old(r2.objects) && redis.kv == old(redis.kv)
      // once the object is gone the call succeeds, whatever became of the two records
      ensures err.Pass? ==>
        && journal.effects == old(journal.effects) + [DeleteObject(ObjectKey(guid)), DelKey(AvatarKey(guid)), DelKey(UsernameKey(username))]
        && r2.objects == old(r2.objects) - {ObjectKey(guid)}
        && (redis.kv == old(redis.kv) || redis.kv == old(redis.kv) - {AvatarKey(guid)}
            || redis.kv == old(redis.kv) - {UsernameKey(username)} || redis.kv == old(redis.kv) - {AvatarKey(guid)} - {UsernameKey(username)})
      // consistent stores stay consistent unless one of the two record deletes failed
      ensures old(Consistent(r2.objects, redis.kv)) && (err.Fail? || redis.kv == old(redis.kv) - {AvatarKey(guid)} - {UsernameKey(username)}) ==>
        Consistent(r2.objects, redis.kv)
    {
      ghost var objects0, kv0 := r2.objects, redis.kv;
      var found := redis.GetGUIDByUsername(username);
      if found.Failure? {
        return Fail(AvatarNotFound(username)), "";
      }
      guid := found.value;
      var deleted := r2.DeleteAvatar(found.value);
      if deleted.Fail? {
        return Fail(BlobDeleteFailed(deleted.error)), guid;
      }
      var metaDeleted := redis.DeleteAvatarMetadata(found.value);
      // a failure here is logged as a warning and otherwise ignored
      var mappingDeleted := redis.DeleteUsernameMapping(username);
      // likewise
      if Consistent(objects0, kv0) {
        DeletePreservesConsistency(objects0, kv0, username, guid);
      }
      err := Pass;
    }
  }
}
