/**
 * The key-value adapter (internal/clients/redis_client.go): two key spaces
 * in one Redis database, `username:<name>` holding the guid of the user's
 * current avatar and `avatar:<guid>` holding the avatar's metadata as JSON.
 * The database is a map from key to value; each network round trip may fail
 * nondeterministically, and a failed write changes nothing.
 */
module KeyValue {
  import opened Wrappers
  import opened Journal
  import opened Formatting

  /** `AvatarMetadata`; `uploadedAt` is the `time.Now()` of the upload, in seconds. */
  datatype AvatarMetadata = AvatarMetadata(
    guid: string, username: string, filename: string, size: int, mimeType: string, uploadedAt: int)

  /**
   * A stored value: plain text, or the JSON document `json.Marshal` made of
   * a metadata record (JSON encoding and decoding are taken to be inverse).
   */
  datatype Value = Text(text: string) | Json(metadata: AvatarMetadata)

  datatype RedisError =
    | UsernameNotFound(username: string)   // "username not found: <name>"
    | MetadataNotFound(guid: string)       // "avatar metadata not found: <guid>"
    | UnmarshalFailed                      // "failed to unmarshal metadata"
    | TransportFailed                      // any error from the Redis connection

  const UsernamePrefix := "username:"
  const AvatarPrefix := "avatar:"

  /** The key of a user's guid mapping. */
  function UsernameKey(username: string): (key: string)
    ensures UsernamePrefix <= key && key[|UsernamePrefix|..] == username
  {
    UsernamePrefix + username
  }

  /** The key of an avatar's metadata. */
  function AvatarKey(guid: string): (key: string)
    ensures AvatarPrefix <= key && key[|AvatarPrefix|..] == guid
  {
    AvatarPrefix + guid
  }

  /** A mapping key is never a metadata key. */
  lemma KeySpacesDisjoint(username: string, guid: string)
    ensures UsernameKey(username) != AvatarKey(guid)
  {
    assert UsernameKey(username)[0] != AvatarKey(guid)[0];
  }

  /** Distinct users have distinct mapping keys. */
  lemma UsernameKeyInjective(u1: string, u2: string)
    ensures UsernameKey(u1) == UsernameKey(u2) ==> u1 == u2
  {
  }

  /** Distinct avatars have distinct metadata keys. */
  lemma AvatarKeyInjective(g1: string, g2: string)
    ensures AvatarKey(g1) == AvatarKey(g2) ==> g1 == g2
  {
  }

  /** The text of the JSON document, as a plain `GET` returns it (no escaping). */
  function JsonText(m: AvatarMetadata): (text: string)
    ensures |text| > 2 && text[0] == '{' && text[|text| - 1] == '}'
  {
    "{\"guid\":\"" + m.guid + "\",\"username\":\"" + m.username + "\",\"filename\":\"" + m.filename
    + "\",\"size\":" + IntToString(m.size) + ",\"mime_type\":\"" + m.mimeType
    + "\",\"uploaded_at\":" + IntToString(m.uploadedAt) + "}"
  }

  /** A value read as a string. */
  function AsText(v: Value): (text: string)
    ensures v.Text? ==> text == v.text
  {
    match v
    case Text(s) => s
    case Json(m) => JsonText(m)
  }

  /** What `GetGUIDByUsername` answers when the connection does not fail. */
  function LookupGUID(kv: map<string, Value>, username: string): (r: Result<string, RedisError>)
    ensures r.Failure? <==> UsernameKey(username) !in kv
    ensures r.Failure? ==> r.error == UsernameNotFound(username)
  {
    var key := UsernameKey(username);
    if key in kv then Success(AsText(kv[key])) else Failure(UsernameNotFound(username))
  }

  /** What `GetAvatarMetadata` answers when the connection does not fail. */
  function LookupMetadata(kv: map<string, Value>, guid: string): (r: Result<AvatarMetadata, RedisError>)
    ensures r.Failure? && r.error == MetadataNotFound(guid) <==> AvatarKey(guid) !in kv
    ensures r.Success? <==> AvatarKey(guid) in kv && kv[AvatarKey(guid)].Json?
  {
    var key := AvatarKey(guid);
    if key !in kv then Failure(MetadataNotFound(guid))
    else match kv[key]
      case Json(m) => Success(m)
      case Text(_) => Failure(UnmarshalFailed)
  }

  /** After setting a mapping it resolves to the new guid; every other mapping and all metadata are as before. */
  lemma SetMappingThenLookup(kv: map<string, Value>, username: string, guid: string)
    ensures LookupGUID(kv[UsernameKey(username) := Text(guid)], username) == Success(guid)
    ensures forall u :: u != username ==> LookupGUID(kv[UsernameKey(username) := Text(guid)], u) == LookupGUID(kv, u)
    ensures forall g :: LookupMetadata(kv[UsernameKey(username) := Text(guid)], g) == LookupMetadata(kv, g)
  {
    forall u | u != username
      ensures LookupGUID(kv[UsernameKey(username) := Text(guid)], u) == LookupGUID(kv, u)
    {
      UsernameKeyInjective(u, username);
    }
    forall g ensures LookupMetadata(kv[UsernameKey(username) := Text(guid)], g) == LookupMetadata(kv, g) {
      KeySpacesDisjoint(username, g);
    }
  }

  /** A second mapping for the same user replaces the first. */
  lemma SetMappingOverwrites(kv: map<string, Value>, username: string, g1: string, g2: string)
    ensures kv[UsernameKey(username) := Text(g1)][UsernameKey(username) := Text(g2)] == kv[UsernameKey(username) := Text(g2)]
  {
  }

  /** Stored metadata reads back equal; other metadata and all mappings are as before. */
  lemma SetMetadataThenLookup(kv: map<string, Value>, m: AvatarMetadata)
    ensures LookupMetadata(kv[AvatarKey(m.guid) := Json(m)], m.guid) == Success(m)
    ensures forall g :: g != m.guid ==> LookupMetadata(kv[AvatarKey(m.guid) := Json(m)], g) == LookupMetadata(kv, g)
    ensures forall u :: LookupGUID(kv[AvatarKey(m.guid) := Json(m)], u) == LookupGUID(kv, u)
  {
    forall g | g != m.guid
      ensures LookupMetadata(kv[AvatarKey(m.guid) := Json(m)], g) == LookupMetadata(kv, g)
    {
      AvatarKeyInjective(g, m.guid);
    }
    forall u ensures LookupGUID(kv[AvatarKey(m.guid) := Json(m)], u) == LookupGUID(kv, u) {
      KeySpacesDisjoint(u, m.guid);
    }
  }

  /** After deleting metadata it is not found; everything else is as before. */
  lemma DeleteMetadataThenLookup(kv: map<string, Value>, guid: string)
    ensures LookupMetadata(kv - {AvatarKey(guid)}, guid) == Failure(MetadataNotFound(guid))
    ensures forall g :: g != guid ==> LookupMetadata(kv - {AvatarKey(guid)}, g) == LookupMetadata(kv, g)
    ensures forall u :: LookupGUID(kv - {AvatarKey(guid)}, u) == LookupGUID(kv, u)
  {
    forall g | g != guid ensures LookupMetadata(kv - {AvatarKey(guid)}, g) == LookupMetadata(kv, g) {
      AvatarKeyInjective(g, guid);
    }
    forall u ensures LookupGUID(kv - {AvatarKey(guid)}, u) == LookupGUID(kv, u) {
      KeySpacesDisjoint(u, guid);
    }
  }

  /** After deleting a mapping it is not found; everything else is as before. */
  lemma DeleteMappingThenLookup(kv: map<string, Value>, username: string)
    ensures LookupGUID(kv - {UsernameKey(username)}, username) == Failure(UsernameNotFound(username))
    ensures forall u :: u != username ==> LookupGUID(kv - {UsernameKey(username)}, u) == LookupGUID(kv, u)
    ensures forall g :: LookupMetadata(kv - {UsernameKey(username)}, g) == LookupMetadata(kv, g)
  {
    forall u | u != username ensures LookupGUID(kv - {UsernameKey(username)}, u) == LookupGUID(kv, u) {
      UsernameKeyInjective(u, username);
    }
    forall g ensures LookupMetadata(kv - {UsernameKey(username)}, g) == LookupMetadata(kv, g) {
      KeySpacesDisjoint(username, g);
    }
  }

  /** The listed names whose lookup succeeded, given one outcome per name. */
  function Resolved(usernames: seq<string>, outcomes: seq<Result<string, RedisError>>): (names: set<string>)
    requires |outcomes| == |usernames|
    ensures forall u :: u in names <==> exists i :: 0 <= i < |usernames| && usernames[i] == u && outcomes[i].Success?
  {
    set i | 0 <= i < |usernames| && outcomes[i].Success? :: usernames[i]
  }

  /** One more name with its outcome adds the name exactly when its lookup succeeded. */
  lemma ResolvedStep(usernames: seq<string>, outcomes: seq<Result<string, RedisError>>,
                     username: string, outcome: Result<string, RedisError>)
    requires |outcomes| == |usernames|
    ensures Resolved(usernames + [username], outcomes + [outcome]) ==
      if outcome.Success? then Resolved(usernames, outcomes) + {username} else Resolved(usernames, outcomes)
  {
    var us, os := usernames + [username], outcomes + [outcome];
    forall u ensures u in Resolved(us, os) <==> u in Resolved(usernames, outcomes) || (outcome.Success? && u == username) {
      if u in Resolved(us, os) {
        var i :| 0 <= i < |us| && us[i] == u && os[i].Success?;
        if i < |usernames| {
          assert usernames[i] == u && outcomes[i].Success?;
        }
      }
      if u in Resolved(usernames, outcomes) {
        var i :| 0 <= i < |usernames| && usernames[i] == u && outcomes[i].Success?;
        assert us[i] == u && os[i].Success?;
      }
      if outcome.Success? && u == username {
        assert us[|usernames|] == u && os[|usernames|].Success?;
      }
    }
  }

  /** The reads a batch makes: one per listed name, paired with its answer. */
  function LookupsOf(usernames: seq<string>, outcomes: seq<Result<string, RedisError>>): (log: seq<Lookup>)
    requires |outcomes| == |usernames|
    ensures |log| == |usernames|
    ensures forall i :: 0 <= i < |usernames| ==> log[i] == Lookup(usernames[i], outcomes[i])
  {
    seq(|usernames|, i requires 0 <= i < |usernames| => Lookup(usernames[i], outcomes[i]))
  }

  lemma LookupsOfStep(usernames: seq<string>, outcomes: seq<Result<string, RedisError>>,
                      username: string, outcome: Result<string, RedisError>)
    requires |outcomes| == |usernames|
    ensures LookupsOf(usernames + [username], outcomes + [outcome]) == LookupsOf(usernames, outcomes) + [Lookup(username, outcome)]
  {
    assert LookupsOf(usernames + [username], outcomes + [outcome])[|usernames|] == Lookup(username, outcome);
  }

  /**
   * A batch after the names `names`: one answer per name, each the stored
   * mapping or a transport error, and the names that resolved kept with
   * their guids.
   */
  ghost predicate BatchSoFar(db: map<string, Value>, names: seq<string>, outcomes: seq<Result<string, RedisError>>,
                             result: map<string, string>)
  {
    && |outcomes| == |names|
    && (forall j :: 0 <= j < |names| ==> outcomes[j] == LookupGUID(db, names[j]) || outcomes[j] == Failure(TransportFailed))
    && result.Keys == Resolved(names, outcomes)
    && (forall u :: u in result ==> LookupGUID(db, u) == Success(result[u]))
  }

  /** One more lookup extends a batch. */
  lemma BatchStep(db: map<string, Value>, names: seq<string>, outcomes: seq<Result<string, RedisError>>,
                  result: map<string, string>, username: string, outcome: Result<string, RedisError>)
    requires BatchSoFar(db, names, outcomes, result)
    requires outcome == LookupGUID(db, username) || outcome == Failure(TransportFailed)
    ensures BatchSoFar(db, names + [username], outcomes + [outcome],
                       if outcome.Success? then result[username := outcome.value] else result)
  {
    ResolvedStep(names, outcomes, username, outcome);
  }

  /** A name that resolved is a listed name with a mapping. */
  lemma ResolvedAreMapped(kv: map<string, Value>, usernames: seq<string>, outcomes: seq<Result<string, RedisError>>)
    requires |outcomes| == |usernames|
    requires forall i :: 0 <= i < |usernames| ==>
      outcomes[i] == LookupGUID(kv, usernames[i]) || outcomes[i] == Failure(TransportFailed)
    ensures Resolved(usernames, outcomes) <= set u | u in usernames && LookupGUID(kv, u).Success?
  {
  }

  /**
   * When no lookup hits a connection failure, the names that resolve are
   * exactly the listed names that have a mapping.
   */
  lemma ResolvedWithoutFailures(kv: map<string, Value>, usernames: seq<string>, outcomes: seq<Result<string, RedisError>>)
    requires |outcomes| == |usernames|
    requires forall i :: 0 <= i < |usernames| ==> outcomes[i] == LookupGUID(kv, usernames[i])
    ensures Resolved(usernames, outcomes) == set u | u in usernames && UsernameKey(u) in kv
  {
    forall u | u in usernames && UsernameKey(u) in kv ensures u in Resolved(usernames, outcomes) {
      var i :| 0 <= i < |usernames| && usernames[i] == u;
      assert outcomes[i].Success?;
    }
  }

  /** One mapping read the client made, with its answer. */
  datatype Lookup = Lookup(username: string, answer: Result<string, RedisError>)

  class RedisClient {
    /** The database: key to value. */
    var kv: map<string, Value>
    ghost const journal: Journal
    /** The mapping reads made through this client, in order. */
    ghost var lookups: seq<Lookup>

    /** A client on a database that already holds `kv`. */
    constructor (journal: Journal, kv: map<string, Value>)
      ensures this.journal == journal && this.kv == kv && lookups == []
    {
      this.journal := journal;
      this.kv := kv;
      this.lookups := [];
    }

    /** `GetGUIDByUsername`: the stored guid, "username not found", or a transport error. */
    method GetGUIDByUsername(username: string) returns (r: Result<string, RedisError>)
      modifies this
      ensures kv == old(kv) && lookups == old(lookups) + [Lookup(username, r)]
      ensures r == LookupGUID(kv, username) || r == Failure(TransportFailed)
      ensures r.Success? ==> UsernameKey(username) in kv && r.value == AsText(kv[UsernameKey(username)])
      ensures r == Failure(UsernameNotFound(username)) <==> UsernameKey(username) !in kv && r != Failure(TransportFailed)
    {
      var key := UsernameKey(username);
      var failed: bool := *;
      if failed {
        r := Failure(TransportFailed);
      } else if key !in kv {
        r := Failure(UsernameNotFound(username));
      } else {
        r := Success(AsText(kv[key]));
      }
      lookups := lookups + [Lookup(username, r)];
    }

    /** `SetGUIDByUsername`: the user's mapping now names `guid`. */
    method SetGUIDByUsername(username: string, guid: string) returns (err: Outcome<RedisError>)
      modifies this, journal
      ensures lookups == old(lookups)
      ensures journal.effects == old(journal.effects) + [SetKey(UsernameKey(username))]
      ensures err.Pass? ==> kv == old(kv)[UsernameKey(username) := Text(guid)]
      ensures err.Fail? ==> err.error == TransportFailed && kv == old(kv)
    {
      var key := UsernameKey(username);
      journal.effects := journal.effects + [SetKey(key)];
      var failed: bool := *;
      if failed {
        return Fail(TransportFailed);
      }
      kv := kv[key := Text(guid)];
      err := Pass;
    }

    /** `GetAvatarMetadata`: the stored record, "not found", an unmarshal error, or a transport error. */
    method GetAvatarMetadata(guid: string) returns (r: Result<AvatarMetadata, RedisError>)
      ensures r == LookupMetadata(kv, guid) || r == Failure(TransportFailed)
      ensures r.Success? ==> kv[AvatarKey(guid)] == Json(r.value)
    {
      var key := AvatarKey(guid);
      var failed: bool := *;
      if failed {
        return Failure(TransportFailed);
      }
      if key !in kv {
        return Failure(MetadataNotFound(guid));
      }
      match kv[key]
      case Json(m) =>
        r := Success(m);
      case Text(_) =>
        r := Failure(UnmarshalFailed);
    }

    /** `SetAvatarMetadata`: the record is stored under its own guid. */
    method SetAvatarMetadata(metadata: AvatarMetadata) returns (err: Outcome<RedisError>)
      modifies this, journal
      ensures lookups == old(lookups)
      ensures journal.effects == old(journal.effects) + [SetKey(AvatarKey(metadata.guid))]
      ensures err.Pass? ==> kv == old(kv)[AvatarKey(metadata.guid) := Json(metadata)]
      ensures err.Fail? ==> err.error == TransportFailed && kv == old(kv)
    {
      var key := AvatarKey(metadata.guid);
      journal.effects := journal.effects + [SetKey(key)];
      var failed: bool := *;
      if failed {
        return Fail(TransportFailed);
      }
      kv := kv[key := Json(metadata)];
      err := Pass;
    }

    /** `DeleteAvatarMetadata`: the metadata key is gone (deleting an absent key succeeds). */
    method DeleteAvatarMetadata(guid: string) returns (err: Outcome<RedisError>)
      modifies this, journal
      ensures lookups == old(lookups)
      ensures journal.effects == old(journal.effects) + [DelKey(AvatarKey(guid))]
      ensures err.Pass? ==> kv == old(kv) - {AvatarKey(guid)}
      ensures err.Fail? ==> err.error == TransportFailed && kv == old(kv)
    {
      var key := AvatarKey(guid);
      journal.effects := journal.effects + [DelKey(key)];
      var failed: bool := *;
      if failed {
        return Fail(TransportFailed);
      }
      kv := kv - {key};
      err := Pass;
    }

    /**
     * `GetGUIDsByUsernames`: looks every name up in turn and keeps the ones
     * that resolved. It never reports an error; a name whose lookup failed
     * (not mapped, or the connection failed) is left out. `outcomes` are
     * the answers of the lookups, one per listed name, in the order they
     * were made.
     */
    method GetGUIDsByUsernames(usernames: seq<string>)
      returns (r: Result<map<string, string>, RedisError>, ghost outcomes: seq<Result<string, RedisError>>)
      modifies this
      ensures r.Success?
      ensures kv == old(kv)
      ensures |outcomes| == |usernames|
      ensures lookups == old(lookups) + LookupsOf(usernames, outcomes)
      ensures forall i :: 0 <= i < |usernames| ==>
        outcomes[i] == LookupGUID(kv, usernames[i]) || outcomes[i] == Failure(TransportFailed)
      ensures r.value.Keys == Resolved(usernames, outcomes)
      ensures r.value.Keys <= set u | u in usernames && LookupGUID(kv, u).Success?
      ensures forall u :: u in r.value ==> LookupGUID(kv, u) == Success(r.value[u])
    {
      ghost var db, log := kv, lookups;
      var result: map<string, string> := map[];
      outcomes := [];
      for i := 0 to |usernames|
        invariant kv == db
        invariant BatchSoFar(db, usernames[..i], outcomes, result)
        invariant lookups == log + LookupsOf(usernames[..i], outcomes)
      {
        var username := usernames[i];
        var guid := GetGUIDByUsername(username);
        BatchStep(db, usernames[..i], outcomes, result, username, guid);
        LookupsOfStep(usernames[..i], outcomes, username, guid);
        assert usernames[..i + 1] == usernames[..i] + [username];
        outcomes := outcomes + [guid];
        if guid.Failure? {
          continue;
        }
        result := result[username := guid.value];
      }
      assert usernames[..|usernames|] == usernames;
      ResolvedAreMapped(db, usernames, outcomes);
      r := Success(result);
    }

    /** `DeleteUsernameMapping`: the mapping key is gone (deleting an absent key succeeds). */
    method DeleteUsernameMapping(username: string) returns (err: Outcome<RedisError>)
      modifies this, journal
      ensures lookups == old(lookups)
      ensures journal.effects == old(journal.effects) + [DelKey(UsernameKey(username))]
      ensures err.Pass? ==> kv == old(kv) - {UsernameKey(username)}
      ensures err.Fail? ==> err.error == TransportFailed && kv == old(kv)
    {
      var key := UsernameKey(username);
      journal.effects := journal.effects + [DelKey(key)];
      var failed: bool := *;
      if failed {
        return Fail(TransportFailed);
      }
      kv := kv - {key};
      err := Pass;
    }
  }
}
