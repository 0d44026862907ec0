/**
 * The tenant-scoped secret client (`MultiClientVaultService`): every secret
 * of client `c` named `p` lives at `secret/data/c/p` of a versioned
 * key-value backend, whose documents wrap the secret map under the key
 * `data`. The client reads, writes and deletes such secrets and projects
 * them onto typed configuration.
 */
module Service {
  import opened Wrappers
  import opened JavaLang
  import opened SecretValues
  import opened Vault

  /** The mount and data prefix of the versioned key-value engine. */
  const SecretBackend: string := "secret/data"

  const DatabaseSecret: string := "database"
  const ApiKeysSecret: string := "api-keys"
  const ConfigSecret: string := "config"

  /** The port used when the stored one is missing or not an `int`. */
  const DefaultPort: Int32 := 5432

  const ReadFailed: string := "Failed to read secret"
  const WriteFailed: string := "Failed to write secret"
  const DeleteFailed: string := "Failed to delete secret"

  /** The RuntimeException the client throws: its message and the backend failure as cause. */
  datatype ServiceError = ServiceError(message: string, cause: BackendError)

  /**
   * `String.format("%s/%s/%s", secretBackend, clientName, secretPath)`: the
   * backend prefix and the client's name, each followed by a slash, then
   * the secret's name.
   */
  function FullPath(clientName: string, secretPath: string): (path: string)
    ensures |path| == |SecretBackend| + |clientName| + |secretPath| + 2
    ensures path[..|SecretBackend| + |clientName| + 2] == SecretBackend + "/" + clientName + "/"
    ensures path[|path| - |secretPath|..] == secretPath
  {
    SecretBackend + "/" + clientName + "/" + secretPath
  }

  /** The path of client "acme-corp"'s database secret. */
  lemma FullPathExample()
    ensures FullPath("acme-corp", "database") == "secret/data/acme-corp/database"
  {
  }

  /**
   * Tenant isolation: as long as client names contain no '/', two clients
   * never share a path, and one client's secret names map to distinct paths.
   */
  lemma {:induction false} FullPathInjective(c1: string, p1: string, c2: string, p2: string)
    requires '/' !in c1 && '/' !in c2
    requires FullPath(c1, p1) == FullPath(c2, p2)
    ensures c1 == c2 && p1 == p2
  {
    var prefix := SecretBackend + "/";
    var t1, t2 := c1 + "/" + p1, c2 + "/" + p2;
    assert FullPath(c1, p1) == prefix + t1;
    assert FullPath(c2, p2) == prefix + t2;
    assert t1 == t2 by {
      assert t1 == (prefix + t1)[|prefix|..];
      assert t2 == (prefix + t2)[|prefix|..];
    }
    SlashAfterClient(c1, p1);
    SlashAfterClient(c2, p2);
    assert c1 == t1[..|c1|] && c2 == t2[..|c2|];
    assert p1 == t1[|c1| + 1..] && p2 == t2[|c2| + 1..];
  }

  /** The position of the first '/' in `s`, or `|s|` when there is none. */
  function FirstSlash(s: string): nat {
    if s == [] || s[0] == '/' then 0 else 1 + FirstSlash(s[1..])
  }

  /** In `client/path`, the first '/' is the one after a slash-free client name. */
  lemma {:induction false} SlashAfterClient(clientName: string, secretPath: string)
    requires '/' !in clientName
    ensures FirstSlash(clientName + "/" + secretPath) == |clientName|
  {
    if clientName != [] {
      assert (clientName + "/" + secretPath)[1..] == clientName[1..] + "/" + secretPath;
      SlashAfterClient(clientName[1..], secretPath);
    }
  }

  /**
   * Nothing checks the segments: a client named "acme/x" reaches the
   * secret "x/database" of client "acme".
   */
  lemma FullPathCollision()
    ensures FullPath("acme", "x/database") == FullPath("acme/x", "database")
  {
  }

  /** Whether a read answered a document whose `data` entry is a map. */
  predicate HoldsSecretMap(response: Option<Response>) {
    response.Some? && response.value.data.Some? && response.value.data.value.Get("data").Map?
  }

  /**
   * The unwrap step of `readClientSecret`: the map under `data` of the
   * response's data, and an empty map for a null response, null data, or
   * a `data` entry that is missing or not a map.
   */
  function Unwrap(response: Option<Response>): (secrets: JavaMap)
    ensures HoldsSecretMap(response) ==> Map(secrets) == response.value.data.value.Get("data")
    ensures !HoldsSecretMap(response) ==> secrets == EmptyMap
  {
    if response.Some? && response.value.data.Some? then
      match response.value.data.value.Get("data")
      case Map(m) => m
      case _ => EmptyMap
    else
      EmptyMap
  }

  /** The document `writeClientSecret` sends: one entry, `data`, holding the caller's map. */
  function Wrap(secrets: JavaMap): (body: JavaMap)
    ensures body.entries.Keys == {"data"} && body.Get("data") == Map(secrets)
    ensures body.WellFormed()
  {
    EmptyMap.Put("data", Map(secrets))
  }

  /** Unwrapping what a write stores gives back the map that was written. */
  lemma UnwrapWrap(secrets: JavaMap)
    ensures Unwrap(Some(Response(Some(Wrap(secrets))))) == secrets
  {
  }

  /** A path with nothing stored reads as an empty secret, not as an error. */
  lemma UnwrapMissing()
    ensures Unwrap(None) == EmptyMap
    ensures Unwrap(Some(Response(None))) == EmptyMap
  {
  }

  /** `getStringValue(map, key)` and the lookup of `readClientSecretField`: absent for missing or null. */
  function StringValue(secrets: JavaMap, key: string): (r: Option<string>)
    ensures r.None? <==> key !in secrets.entries || secrets.entries[key].Null?
    ensures r.Some? ==> r.value == Show(secrets.entries[key])
  {
    var value := secrets.Get(key);
    if value.Null? then None else Some(Show(value))
  }

  /**
   * `getIntValue(map, key, defaultValue)`: the stored value's text parsed by
   * `Integer.parseInt`, or the default when the value is missing, null or
   * does not parse. It never fails.
   */
  function IntValue(secrets: JavaMap, key: string, default: Int32): (r: Int32)
    ensures r != default ==> key in secrets.entries && !secrets.entries[key].Null?
    ensures r != default ==> ParseInt(Show(secrets.entries[key])) == Some(r)
    ensures key in secrets.entries && !secrets.entries[key].Null? && ParseInt(Show(secrets.entries[key])).Some?
            ==> r == ParseInt(Show(secrets.entries[key])).value
  {
    var value := secrets.Get(key);
    if value.Null? then default
    else
      match ParseInt(Show(value))
      case Some(n) => n
      case None => default
  }

  /** A stored JSON integer that fits in an `int` is taken as it is. */
  lemma IntValueOfInt(secrets: JavaMap, key: string, n: Int32, default: Int32)
    requires key in secrets.entries && secrets.entries[key] == Int(n)
    ensures IntValue(secrets, key, default) == n
  {
    ParseIntOfDecimal(n);
  }

  /** A stored JSON integer outside the `int` range falls back to the default. */
  lemma IntValueOfWideInt(secrets: JavaMap, key: string, n: int, default: Int32)
    requires key in secrets.entries && secrets.entries[key] == Int(n) && !InInt32Range(n)
    ensures IntValue(secrets, key, default) == default
  {
    ParseIntOfDecimal(n);
  }

  /** A stored string holding the decimal form of an `int` is parsed to that `int`. */
  lemma IntValueOfText(secrets: JavaMap, key: string, n: Int32, default: Int32)
    requires key in secrets.entries && secrets.entries[key] == Str(IntToDecimal(n))
    ensures IntValue(secrets, key, default) == n
  {
    ParseIntOfDecimal(n);
  }

  /** A missing, null or unparsable value gives the default. */
  lemma IntValueFallback(secrets: JavaMap, key: string, default: Int32)
    requires key !in secrets.entries || secrets.entries[key].Null? || ParseInt(Show(secrets.entries[key])).None?
    ensures IntValue(secrets, key, default) == default
  {
  }

  /** The port examples: "5433" gives 5433; "not-a-number" and a missing port give 5432. */
  lemma PortExamples()
    ensures IntValue(JavaMap(["username", "port"], map["username" := Str("svc"), "port" := Str("5433")]), "port", DefaultPort) == 5433
    ensures IntValue(JavaMap(["port"], map["port" := Str("not-a-number")]), "port", DefaultPort) == 5432
    ensures IntValue(EmptyMap, "port", DefaultPort) == 5432
  {
    assert IntToDecimal(5433) == "5433";
    ParseIntOfDecimal(5433);
    JavaLang.ParseIntRejectsMalformed();
  }

  /** The flattened view of a secret map: its non-null entries, each as its string form. */
  function Flattened(secrets: JavaMap): map<string, string> {
    map key | key in secrets.entries && !secrets.entries[key].Null? :: Show(secrets.entries[key])
  }

  /**
   * The `forEach` of `getApiKeys` and `getAppConfig`: puts every non-null
   * entry's string form into a fresh map. The keys are visited in any
   * order; the result does not depend on it.
   */
  method FlattenSecrets(secrets: JavaMap) returns (result: map<string, string>)
    ensures forall key :: key in result <==> key in secrets.entries && !secrets.entries[key].Null?
    ensures forall key :: key in result ==> result[key] == Show(secrets.entries[key])
    ensures result == Flattened(secrets)
  {
    result := map[];
    var remaining := secrets.entries.Keys;
    while remaining != {}
      invariant remaining <= secrets.entries.Keys
      invariant forall key :: key in result <==> key in secrets.entries && key !in remaining && !secrets.entries[key].Null?
      invariant forall key :: key in result ==> result[key] == Show(secrets.entries[key])
      decreases remaining
    {
      var key :| key in remaining;
      var value := secrets.entries[key];
      if !value.Null? {
        result := result[key := Show(value)];
      }
      remaining := remaining - {key};
    }
  }

  /** The nested configuration object `getDatabaseConfig` fills: a plain mutable bean. */
  class DatabaseConfig {
    var username: Option<string>
    var password: Option<string>
    var host: Option<string>
    var port: Int32
    var database: Option<string>

    /** Every reference field null, the `int` port 0. */
    constructor ()
      ensures username.None? && password.None? && host.None? && database.None? && port == 0
    {
      username, password, host, database := None, None, None, None;
      port := 0;
    }

    /** The value the last `SetUsername` stored (initially the constructor's). */
    function GetUsername(): (r: Option<string>)
      reads this
      ensures r == username
    {
      username
    }

    /** The value the last `SetPassword` stored (initially the constructor's). */
    function GetPassword(): (r: Option<string>)
      reads this
      ensures r == password
    {
      password
    }

    /** The value the last `SetHost` stored (initially the constructor's). */
    function GetHost(): (r: Option<string>)
      reads this
      ensures r == host
    {
      host
    }

    /** The value the last `SetPort` stored (initially the constructor's). */
    function GetPort(): (r: Int32)
      reads this
      ensures r == port
    {
      port
    }

    /** The value the last `SetDatabase` stored (initially the constructor's). */
    function GetDatabase(): (r: Option<string>)
      reads this
      ensures r == database
    {
      database
    }

    method SetUsername(value: Option<string>)
      modifies this
      ensures GetUsername() == value
      ensures password == old(password) && host == old(host) && port == old(port) && database == old(database)
    {
      username := value;
    }

    method SetPassword(value: Option<string>)
      modifies this
      ensures GetPassword() == value
      ensures username == old(username) && host == old(host) && port == old(port) && database == old(database)
    {
      password := value;
    }

    method SetHost(value: Option<string>)
      modifies this
      ensures GetHost() == value
      ensures username == old(username) && password == old(password) && port == old(port) && database == old(database)
    {
      host := value;
    }

    method SetPort(value: Int32)
      modifies this
      ensures GetPort() == value
      ensures username == old(username) && password == old(password) && host == old(host) && database == old(database)
    {
      port := value;
    }

    method SetDatabase(value: Option<string>)
      modifies this
      ensures GetDatabase() == value
      ensures username == old(username) && password == old(password) && host == old(host) && port == old(port)
    {
      database := value;
    }

    /**
     * `jdbc:postgresql://host:port/database`, with `%s` rendering a null
     * as "null": the text between the host's colon and the database's
     * slash is the port's decimal form, which parses back to the port.
     */
    function GetJdbcUrl(): (url: string)
      reads this
      ensures JdbcUrlOf(url, ShowString(host), port, ShowString(database))
    {
      var url := JdbcPrefix + ShowString(host) + ":" + IntToDecimal(port) + "/" + ShowString(database);
      JdbcUrlLayout(ShowString(host), port, ShowString(database));
      url
    }
  }

  const JdbcPrefix: string := "jdbc:postgresql://"

  /**
   * `url` is the PostgreSQL JDBC URL of `host`, `port` and `database`: the
   * prefix and host, a colon, a text that `Integer.parseInt` reads as the
   * port, a slash and the database.
   */
  predicate JdbcUrlOf(url: string, host: string, port: Int32, database: string) {
    var start := |JdbcPrefix| + |host| + 1;
    var end := |url| - |database| - 1;
    && start <= end
    && url[..start] == JdbcPrefix + host + ":"
    && url[end..] == "/" + database
    && ParseInt(url[start..end]) == Some(port)
  }

  lemma JdbcUrlLayout(host: string, port: Int32, database: string)
    ensures JdbcUrlOf(JdbcPrefix + host + ":" + IntToDecimal(port) + "/" + database, host, port, database)
  {
    var head, digits, tail := JdbcPrefix + host + ":", IntToDecimal(port), "/" + database;
    var url := head + digits + tail;
    assert url == JdbcPrefix + host + ":" + IntToDecimal(port) + "/" + database;
    assert url[..|head|] == head;
    assert url[|url| - |tail|..] == tail;
    assert url[|head|..|url| - |tail|] == digits;
    ParseIntOfDecimal(port);
  }

  class MultiClientVaultService {
    /** The injected `VaultTemplate`. */
    const vault: VaultTemplate

    constructor (vault: VaultTemplate)
      ensures this.vault == vault
    {
      this.vault := vault;
    }

    /** What a successful read of client `clientName`'s secret `secretPath` returns now. */
    function Stored(clientName: string, secretPath: string): JavaMap
      reads vault`responses
    {
      Unwrap(vault.Lookup(FullPath(clientName, secretPath)))
    }

    /**
     * `readClientSecret`: reads `secret/data/<client>/<path>` and unwraps
     * it; a missing or malformed secret is an empty map, and only a
     * backend failure is an error.
     */
    method ReadClientSecret(clientName: string, secretPath: string) returns (r: Result<JavaMap, ServiceError>)
      ensures r.Failure? <==> !vault.Accepts(FullPath(clientName, secretPath))
      ensures r.Failure? ==> r.error == ServiceError(ReadFailed, vault.Refusal(FullPath(clientName, secretPath)).value)
      ensures r.Success? ==> r.value == Unwrap(vault.Lookup(FullPath(clientName, secretPath)))
    {
      var fullPath := FullPath(clientName, secretPath);
      var response := vault.Read(fullPath);
      match response {
        case Failure(e) =>
          return Failure(ServiceError(ReadFailed, e));
        case Success(resp) =>
          if resp.Some? && resp.value.data.Some? {
            var data := resp.value.data.value.Get("data");
            if data.Map? {
              return Success(data.m);
            }
          }
          return Success(EmptyMap);
      }
    }

    /** `readClientSecretField`: the field's string form, absent when missing or null. */
    method ReadClientSecretField(clientName: string, secretPath: string, fieldName: string)
      returns (r: Result<Option<string>, ServiceError>)
      ensures r.Failure? <==> !vault.Accepts(FullPath(clientName, secretPath))
      ensures r.Failure? ==> r.error == ServiceError(ReadFailed, vault.Refusal(FullPath(clientName, secretPath)).value)
      ensures r.Success? ==> r.value == StringValue(Stored(clientName, secretPath), fieldName)
    {
      var secrets := ReadClientSecret(clientName, secretPath);
      match secrets {
        case Failure(e) => return Failure(e);
        case Success(m) => return Success(StringValue(m, fieldName));
      }
    }

    /** `writeClientSecret`: stores the caller's map wrapped under `data` at the client's path. */
    method WriteClientSecret(clientName: string, secretPath: string, secrets: JavaMap)
      returns (r: Outcome<ServiceError>)
      modifies vault`responses
      ensures r.Fail? <==> !vault.Accepts(FullPath(clientName, secretPath))
      ensures r.Fail? ==> r.error == ServiceError(WriteFailed, vault.Refusal(FullPath(clientName, secretPath)).value)
      ensures r.Fail? ==> vault.responses == old(vault.responses)
      ensures r.Pass? ==> vault.responses == old(vault.responses)[FullPath(clientName, secretPath) := Response(Some(Wrap(secrets)))]
    {
      var fullPath := FullPath(clientName, secretPath);
      var wrappedData := EmptyMap;
      wrappedData := wrappedData.Put("data", Map(secrets));
      var outcome := vault.Write(fullPath, wrappedData);
      match outcome {
        case Fail(e) => return Fail(ServiceError(WriteFailed, e));
        case Pass => return Pass;
      }
    }

    /** `deleteClientSecret`: forgets the client's path; deleting an absent secret succeeds. */
    method DeleteClientSecret(clientName: string, secretPath: string) returns (r: Outcome<ServiceError>)
      modifies vault`responses
      ensures r.Fail? <==> !vault.Accepts(FullPath(clientName, secretPath))
      ensures r.Fail? ==> r.error == ServiceError(DeleteFailed, vault.Refusal(FullPath(clientName, secretPath)).value)
      ensures r.Fail? ==> vault.responses == old(vault.responses)
      ensures r.Pass? ==> vault.responses == old(vault.responses) - {FullPath(clientName, secretPath)}
    {
      var fullPath := FullPath(clientName, secretPath);
      var outcome := vault.Delete(fullPath);
      match outcome {
        case Fail(e) => return Fail(ServiceError(DeleteFailed, e));
        case Pass => return Pass;
      }
    }

    /**
     * A write followed by a read of the same secret returns the map that
     * was written, and a delete then makes it read as empty.
     */
    method WriteReadDelete(clientName: string, secretPath: string, secrets: JavaMap)
      returns (written: Result<JavaMap, ServiceError>, deleted: Result<JavaMap, ServiceError>)
      modifies vault`responses
      ensures vault.Accepts(FullPath(clientName, secretPath)) ==> written == Success(secrets)
      ensures vault.Accepts(FullPath(clientName, secretPath)) ==> deleted == Success(EmptyMap)
    {
      var w := WriteClientSecret(clientName, secretPath, secrets);
      written := ReadClientSecret(clientName, secretPath);
      var d := DeleteClientSecret(clientName, secretPath);
      deleted := ReadClientSecret(clientName, secretPath);
    }

    /**
     * `getDatabaseConfig`: a new config whose string fields are the
     * same-named entries of the client's `database` secret (null when
     * missing) and whose port is the parsed `port` entry or 5432.
     */
    method GetDatabaseConfig(clientName: string) returns (r: Result<DatabaseConfig, ServiceError>)
      ensures r.Failure? <==> !vault.Accepts(FullPath(clientName, DatabaseSecret))
      ensures r.Failure? ==> r.error == ServiceError(ReadFailed, vault.Refusal(FullPath(clientName, DatabaseSecret)).value)
      ensures r.Success? ==> fresh(r.value)
      ensures r.Success? ==>
        var secrets := Stored(clientName, DatabaseSecret);
        && r.value.GetUsername() == StringValue(secrets, "username")
        && r.value.GetPassword() == StringValue(secrets, "password")
        && r.value.GetHost() == StringValue(secrets, "host")
        && r.value.GetPort() == IntValue(secrets, "port", DefaultPort)
        && r.value.GetDatabase() == StringValue(secrets, "database")
    {
      var dbSecrets := ReadClientSecret(clientName, DatabaseSecret);
      if dbSecrets.Failure? {
        return Failure(dbSecrets.error);
      }
      var secrets := dbSecrets.value;
      var config := new DatabaseConfig();
      config.SetUsername(StringValue(secrets, "username"));
      config.SetPassword(StringValue(secrets, "password"));
      config.SetHost(StringValue(secrets, "host"));
      config.SetPort(IntValue(secrets, "port", DefaultPort));
      config.SetDatabase(StringValue(secrets, "database"));
      r := Success(config);
    }

    /** `getApiKeys`: the client's `api-keys` secret, flattened to strings. */
    method GetApiKeys(clientName: string) returns (r: Result<map<string, string>, ServiceError>)
      ensures r.Failure? <==> !vault.Accepts(FullPath(clientName, ApiKeysSecret))
      ensures r.Failure? ==> r.error == ServiceError(ReadFailed, vault.Refusal(FullPath(clientName, ApiKeysSecret)).value)
      ensures r.Success? ==> r.value == Flattened(Stored(clientName, ApiKeysSecret))
    {
      var apiKeys := ReadClientSecret(clientName, ApiKeysSecret);
      if apiKeys.Failure? {
        return Failure(apiKeys.error);
      }
      var result := FlattenSecrets(apiKeys.value);
      r := Success(result);
    }

    /** `getAppConfig`: the client's `config` secret, flattened to strings. */
    method GetAppConfig(clientName: string) returns (r: Result<map<string, string>, ServiceError>)
      ensures r.Failure? <==> !vault.Accepts(FullPath(clientName, ConfigSecret))
      ensures r.Failure? ==> r.error == ServiceError(ReadFailed, vault.Refusal(FullPath(clientName, ConfigSecret)).value)
      ensures r.Success? ==> r.value == Flattened(Stored(clientName, ConfigSecret))
    {
      var config := ReadClientSecret(clientName, ConfigSecret);
      if config.Failure? {
        return Failure(config.error);
      }
      var result := FlattenSecrets(config.value);
      r := Success(result);
    }
  }
}
