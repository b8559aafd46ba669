/** The `secret set` and `secret remove` handlers: one edit of the stage's
    secret map between a read from and a write to the secret backend. */
module Secrets {
  import opened Errors
  import opened Flags

  type SecretMap = map<string, string>

  /** `secrets[key] = value`: inserts or overwrites one key. */
  function SetSecret(m: SecretMap, key: string, value: string): (r: SecretMap)
    ensures r.Keys == m.Keys + {key}
    ensures r[key] == value
    ensures forall k :: k in m && k != key ==> r[k] == m[k]
  {
    m[key := value]
  }

  /** The check for an existing key followed by `delete`: None when the key
      is absent, otherwise the map without that one key. */
  function RemoveSecret(m: SecretMap, key: string): (r: Option<SecretMap>)
    ensures r.None? <==> key !in m
    ensures r.Some? ==> r.value.Keys == m.Keys - {key}
    ensures r.Some? ==> forall k :: k in r.value ==> r.value[k] == m[k]
  {
    if key !in m then None else Some(m - {key})
  }

  /** Removing a key just set leaves the map without that key, whatever it
      held before. */
  lemma RemoveAfterSet(m: SecretMap, key: string, value: string)
    ensures RemoveSecret(SetSecret(m, key, value), key) == Some(m - {key})
  {
    assert SetSecret(m, key, value) - {key} == m - {key};
  }

  /** Setting a removed key back to its old value restores the map. */
  lemma SetAfterRemove(m: SecretMap, key: string)
    requires key in m
    ensures SetSecret(RemoveSecret(m, key).value, key, m[key]) == m
  {
  }

  /** Setting the same key twice keeps only the last value. */
  lemma SetOverwrites(m: SecretMap, key: string, v1: string, v2: string)
    ensures SetSecret(SetSecret(m, key, v1), key, v2) == SetSecret(m, key, v2)
  {
  }

  /** A removed key is gone: removing it a second time fails. */
  lemma RemoveTwiceFails(m: SecretMap, key: string)
    requires key in m
    ensures RemoveSecret(RemoveSecret(m, key).value, key) == None
  {
  }

  const GET_FAILED: CliError := Readable("Could not get secrets")
  const PUT_FAILED: CliError := Readable("Could not set secret")

  function NotFound(key: string, stage: string): CliError {
    Readable("Secret \"" + key + "\" does not exist for stage \"" + stage + "\"")
  }

  /** The secret backend of one app and stage, with `GetSecrets` and
      `PutSecrets`; whether a call succeeds is decided by its caller. */
  class SecretBackend {
    /** What the backend holds. */
    var stored: SecretMap
    /** How many times `PutSecrets` has been called. */
    var puts: nat

    constructor (stored: SecretMap)
      ensures this.stored == stored && puts == 0
    {
      this.stored := stored;
      puts := 0;
    }

    /** `GetSecrets`: a copy of the stored map, or a failure. */
    method Get(ok: bool) returns (r: Option<SecretMap>)
      ensures ok ==> r == Some(stored)
      ensures !ok ==> r == None
    {
      if ok {
        r := Some(stored);
      } else {
        r := None;
      }
    }

    /** `PutSecrets`: replaces the stored map when it succeeds. */
    method Put(m: SecretMap, ok: bool) returns (success: bool)
      modifies this
      ensures success == ok
      ensures puts == old(puts) + 1
      ensures stored == (if ok then m else old(stored))
    {
      puts := puts + 1;
      if ok {
        stored := m;
      }
      success := ok;
    }

    /** The `secret set` handler: key and value are the first two positionals;
        `initError` is what setting up the project returned. */
    method SetHandler(cli: Cli, initError: Option<CliError>, getOk: bool, putOk: bool)
      returns (err: Option<CliError>)
      modifies this
      ensures err == (if initError.Some? then initError
                      else if !getOk then Some(GET_FAILED)
                      else if !putOk then Some(PUT_FAILED)
                      else None)
      ensures stored == (if err.None? then SetSecret(old(stored), cli.Positional(0), cli.Positional(1))
                         else old(stored))
      ensures puts == old(puts) + (if initError.None? && getOk then 1 else 0)
    {
      var key := cli.Positional(0);
      var value := cli.Positional(1);
      if initError.Some? {
        return initError;
      }
      var secrets := Get(getOk);
      if secrets.None? {
        return Some(GET_FAILED);
      }
      var edited := secrets.value[key := value];
      var ok := Put(edited, putOk);
      if !ok {
        return Some(PUT_FAILED);
      }
      err := None;
    }

    /** The `secret remove` handler: the key is the first positional; an
        absent key fails before anything is written. */
    method RemoveHandler(cli: Cli, stage: string, initError: Option<CliError>, getOk: bool, putOk: bool)
      returns (err: Option<CliError>)
      modifies this
      ensures err == (if initError.Some? then initError
                      else if !getOk then Some(GET_FAILED)
                      else if cli.Positional(0) !in old(stored) then Some(NotFound(cli.Positional(0), stage))
                      else if !putOk then Some(PUT_FAILED)
                      else None)
      ensures stored == (if err.None? then RemoveSecret(old(stored), cli.Positional(0)).value
                         else old(stored))
      ensures puts == old(puts) + (if initError.None? && getOk && cli.Positional(0) in old(stored) then 1 else 0)
    {
      var key := cli.Positional(0);
      if initError.Some? {
        return initError;
      }
      var secrets := Get(getOk);
      if secrets.None? {
        return Some(GET_FAILED);
      }
      var current := secrets.value;
      if key !in current {
        return Some(NotFound(key, stage));
      }
      var edited := current - {key};
      var ok := Put(edited, putOk);
      if !ok {
        return Some(PUT_FAILED);
      }
      err := None;
    }
  }
}
