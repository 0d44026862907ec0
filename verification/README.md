# Tenant-scoped secret client — a Dafny model

This project models the secret-access core of the `secure-vault` demo service.

`MultiClientVaultService` keeps the secrets of many client projects in one HashiCorp Vault key-value engine, version 2. Client `c`'s secret `p` lives at `secret/data/c/p`. A write wraps the caller's map under a `data` entry. A read unwraps that entry, and a missing or malformed secret reads as an empty map. A failure of the backend becomes a `RuntimeException` carrying the backend's error as its cause. On top of that, the service projects a secret map onto a typed `DatabaseConfig`: strings pass through, a missing value is null, and the port is parsed by `Integer.parseInt` with 5432 as the fallback. It also flattens a secret map into a `Map<String, String>`, dropping null values. Beside the service sits the `DatabaseConfig` settings bean. Its `toString` masks the password.

Files:

- `wrappers.dfy` — `Option` (a Java reference that may be null), `Result` (a value or a thrown exception), `Outcome` (a `void` call that completes or throws).
- `java_lang.dfy` — the Java `int` (`Int32`), `Integer.toString`, `Integer.parseInt`, and how a concatenation renders a null `String` or `Integer`.
- `secret_values.dfy` — the loosely typed secret values: `Str | Int | Bool | Null | Map | Other`. A Java map (`JavaMap`) holds its entries and its iteration order. `Show` is `String.valueOf`.
- `vault_template.dfy` — the backend behind `VaultTemplate`. It is a class holding a map from path to raw response, plus the conditions under which it refuses a request: an unreachable transport, or a path that the policy denies.
- `multi_client_vault_service.dfy` — the service:
  - path building;
  - unwrap and wrap;
  - the typed projection helpers;
  - the `forEach` flattening loop;
  - the nested `DatabaseConfig` bean with `getJdbcUrl`;
  - the service class, whose methods read, write and delete through the backend.
- `database_config.dfy` — the `config.DatabaseConfig` bean: setters that change one field each, and a `toString` that depends only on the four non-secret fields.

The code never validates client names or secret names, and the model does not either. `FullPathCollision` shows that client `acme/x` reaches client `acme`'s secret `x/database`. Isolation between tenants holds only for client names without `/` (`FullPathInjective`).

## Model

| member | source | states |
|---|---|---|
| `JavaLang.ParseInt` | src/main/java/com/rana/voult_demo/service/MultiClientVaultService.java:182 | a parsed value is a Java `int`; it comes from text that starts with a digit or a sign, and a negative result needs a leading `-` |
| `JavaLang.ParseIntOfDecimal` | src/main/java/com/rana/voult_demo/service/MultiClientVaultService.java:182 | parsing the decimal text of an integer gives it back exactly when it lies in [-2147483648, 2147483647], and fails otherwise |
| `JavaLang.ParseIntAcceptsSignAndLeadingZeros` | src/main/java/com/rana/voult_demo/service/MultiClientVaultService.java:182 | `+5433`, `007` and `-0` parse, to 5433, 7 and 0 |
| `JavaLang.ParseIntRejectsMalformed` | src/main/java/com/rana/voult_demo/service/MultiClientVaultService.java:182-185 | the empty string, a lone sign, a leading blank, `not-a-number` and `5432.0` do not parse |
| `JavaLang.IntToDecimal` | src/main/java/com/rana/voult_demo/service/MultiClientVaultService.java:182 | the decimal text of an integer: nonempty, a leading `-` exactly for negatives, then only digits with no leading zero (`JavaLang.ParseIntOfDecimal` shows it reads back) |
| `SecretValues.JavaMap.Get` | src/main/java/com/rana/voult_demo/service/MultiClientVaultService.java:68 | null exactly when the key is missing or maps to null; a present key gives the value stored under it |
| `SecretValues.Show` | src/main/java/com/rana/voult_demo/service/MultiClientVaultService.java:173-176 | a string shows as itself, null as `null`, a boolean as `true` or `false`, any other value as its own `toString` text, a JSON integer as its decimal text (`JavaLang.IntToDecimal`), which `Integer.parseInt` reads back to it when it fits an `int` (and rejects otherwise), a map as its `key=value` entry texts in iteration order, separated by `, ` and enclosed in `{` and `}` |
| `SecretValues.JavaMap.Put` | src/main/java/com/rana/voult_demo/service/MultiClientVaultService.java:85-86 | the key then maps to the value, every other key keeps its value, and a map whose iteration visits each key once still does |
| `SecretValues.EntryTextsLength` | src/main/java/com/rana/voult_demo/service/MultiClientVaultService.java:146 | a map whose iteration visits each key once shows one `key=value` text per key, in iteration order |
| `Vault.VaultTemplate.Read` | src/main/java/com/rana/voult_demo/service/MultiClientVaultService.java:40 | a read fails exactly when the backend refuses the path; otherwise it answers the stored response, or null when nothing is stored |
| `Vault.VaultTemplate.Write` | src/main/java/com/rana/voult_demo/service/MultiClientVaultService.java:88 | a write fails exactly when the backend refuses the path, and then changes nothing; otherwise the path afterwards reads the written body |
| `Vault.VaultTemplate.Delete` | src/main/java/com/rana/voult_demo/service/MultiClientVaultService.java:107 | a delete fails exactly when the backend refuses the path; otherwise the path is forgotten, whether or not anything was stored there |
| `Service.FullPath` | src/main/java/com/rana/voult_demo/service/MultiClientVaultService.java:25-37 | the path is `secret/data/`, the client name, `/`, then the secret name, with nothing else in between |
| `Service.FullPathExample` | src/main/java/com/rana/voult_demo/service/MultiClientVaultService.java:25-37 | client `acme-corp`'s secret `database` is at `secret/data/acme-corp/database` |
| `Service.FullPathInjective` | src/main/java/com/rana/voult_demo/service/MultiClientVaultService.java:37 | for client names without `/`, equal paths mean the same client and the same secret name, so tenants never share a path |
| `Service.FullPathCollision` | src/main/java/com/rana/voult_demo/service/MultiClientVaultService.java:37 | without validation, client `acme/x`'s secret `database` is the same path as client `acme`'s secret `x/database` |
| `Service.Unwrap` | src/main/java/com/rana/voult_demo/service/MultiClientVaultService.java:40-51 | when the response, its data and a map under `data` are all present, the result is that map; in every other case it is the empty map |
| `Service.Wrap` | src/main/java/com/rana/voult_demo/service/MultiClientVaultService.java:85-86 | the body sent has exactly one key, `data`, holding the caller's map |
| `Service.UnwrapWrap` | src/main/java/com/rana/voult_demo/service/MultiClientVaultService.java:85-88 | unwrapping what a write stores gives back the map that was written |
| `Service.UnwrapMissing` | src/main/java/com/rana/voult_demo/service/MultiClientVaultService.java:42-51 | a null response, or a response with null data, reads as the empty map, not as an error |
| `Service.StringValue` | src/main/java/com/rana/voult_demo/service/MultiClientVaultService.java:173-176 | absent exactly when the key is missing or maps to null; otherwise the value's string form |
| `Service.IntValue` | src/main/java/com/rana/voult_demo/service/MultiClientVaultService.java:178-188 | when the key is present with a non-null value whose string form `Integer.parseInt` accepts, the result is the parsed value; any result other than the default comes from such a value |
| `Service.IntValueOfInt` | src/main/java/com/rana/voult_demo/service/MultiClientVaultService.java:178-188 | a stored JSON integer within the `int` range is returned as it is |
| `Service.IntValueOfWideInt` | src/main/java/com/rana/voult_demo/service/MultiClientVaultService.java:178-188 | a stored JSON integer outside the `int` range gives the default |
| `Service.IntValueOfText` | src/main/java/com/rana/voult_demo/service/MultiClientVaultService.java:178-188 | a stored string that is the decimal form of an `int` gives that `int` |
| `Service.IntValueFallback` | src/main/java/com/rana/voult_demo/service/MultiClientVaultService.java:178-188 | a missing, null or unparsable value gives the default; the function never fails |
| `Service.PortExamples` | src/main/java/com/rana/voult_demo/service/MultiClientVaultService.java:128 | port `"5433"` gives 5433; `"not-a-number"` and a missing port give 5432 |
| `Service.FlattenSecrets` | src/main/java/com/rana/voult_demo/service/MultiClientVaultService.java:144-148 | the loop's result has exactly the source keys whose values are non-null, each mapped to its value's string form, whatever the visiting order |
| `Service.DatabaseConfig.constructor` | src/main/java/com/rana/voult_demo/service/MultiClientVaultService.java:193-198 | a new config has null strings and port 0 |
| `Service.DatabaseConfig.GetUsername` | src/main/java/com/rana/voult_demo/service/MultiClientVaultService.java:201-203 | returns the value the constructor or the last `setUsername` stored |
| `Service.DatabaseConfig.GetPassword` | src/main/java/com/rana/voult_demo/service/MultiClientVaultService.java:209-211 | returns the value the constructor or the last `setPassword` stored |
| `Service.DatabaseConfig.GetHost` | src/main/java/com/rana/voult_demo/service/MultiClientVaultService.java:217-219 | returns the value the constructor or the last `setHost` stored |
| `Service.DatabaseConfig.GetPort` | src/main/java/com/rana/voult_demo/service/MultiClientVaultService.java:225-227 | returns the value the constructor or the last `setPort` stored |
| `Service.DatabaseConfig.GetDatabase` | src/main/java/com/rana/voult_demo/service/MultiClientVaultService.java:233-235 | returns the value the constructor or the last `setDatabase` stored |
| `Service.DatabaseConfig.SetUsername` | src/main/java/com/rana/voult_demo/service/MultiClientVaultService.java:201-207 | the getter then returns the value set; the other four fields are unchanged |
| `Service.DatabaseConfig.SetPassword` | src/main/java/com/rana/voult_demo/service/MultiClientVaultService.java:209-215 | the getter then returns the value set; the other four fields are unchanged |
| `Service.DatabaseConfig.SetHost` | src/main/java/com/rana/voult_demo/service/MultiClientVaultService.java:217-223 | the getter then returns the value set; the other four fields are unchanged |
| `Service.DatabaseConfig.SetPort` | src/main/java/com/rana/voult_demo/service/MultiClientVaultService.java:225-231 | the getter then returns the value set; the other four fields are unchanged |
| `Service.DatabaseConfig.SetDatabase` | src/main/java/com/rana/voult_demo/service/MultiClientVaultService.java:233-239 | the getter then returns the value set; the other four fields are unchanged |
| `Service.DatabaseConfig.GetJdbcUrl` | src/main/java/com/rana/voult_demo/service/MultiClientVaultService.java:241-243 | the URL is `jdbc:postgresql://`, the host, a colon, a text that parses back to the port, a slash, then the database; null renders as `null` |
| `Service.JdbcUrlLayout` | src/main/java/com/rana/voult_demo/service/MultiClientVaultService.java:242 | the format string's output has that layout, and its port text parses back to the port |
| `Service.MultiClientVaultService.ReadClientSecret` | src/main/java/com/rana/voult_demo/service/MultiClientVaultService.java:35-56 | fails with "Failed to read secret" and the backend's cause exactly when the backend refuses the client's path; otherwise returns the unwrapped secret, empty when missing or malformed |
| `Service.MultiClientVaultService.ReadClientSecretField` | src/main/java/com/rana/voult_demo/service/MultiClientVaultService.java:66-70 | the read's failure passes through unchanged; otherwise the field's string form, absent when missing or null |
| `Service.MultiClientVaultService.WriteClientSecret` | src/main/java/com/rana/voult_demo/service/MultiClientVaultService.java:79-94 | fails with "Failed to write secret" exactly when refused, and then the store is unchanged; otherwise the client's path holds the caller's map wrapped under `data`, and no other path changes |
| `Service.MultiClientVaultService.DeleteClientSecret` | src/main/java/com/rana/voult_demo/service/MultiClientVaultService.java:102-113 | fails with "Failed to delete secret" exactly when refused; otherwise exactly the client's path is removed, and deleting an absent secret is not an error |
| `Service.MultiClientVaultService.WriteReadDelete` | src/main/java/com/rana/voult_demo/service/MultiClientVaultService.java:79-113 | when the backend accepts the path, a write then a read returns the written map, and a delete then a read returns the empty map |
| `Service.MultiClientVaultService.GetDatabaseConfig` | src/main/java/com/rana/voult_demo/service/MultiClientVaultService.java:121-132 | reads `database`; a read failure passes through; otherwise a fresh config whose string fields are the same-named entries (null when missing) and whose port is the parsed `port` entry or 5432 |
| `Service.MultiClientVaultService.GetApiKeys` | src/main/java/com/rana/voult_demo/service/MultiClientVaultService.java:140-151 | reads `api-keys`; a read failure passes through; otherwise the secret's non-null entries as strings |
| `Service.MultiClientVaultService.GetAppConfig` | src/main/java/com/rana/voult_demo/service/MultiClientVaultService.java:159-170 | reads `config`; a read failure passes through; otherwise the secret's non-null entries as strings |
| `Config.Display` | src/main/java/com/rana/voult_demo/config/DatabaseConfig.java:61-70 | the text always contains `password='***MASKED***'`, directly after `DatabaseConfig{` and the quoted username; then come the quoted host, `port=` and a bare port text that parses back to the port (or `null`), and the quoted database before the closing `}` |
| `Config.DatabaseConfig.constructor` | src/main/java/com/rana/voult_demo/config/DatabaseConfig.java:12-18 | every property is null until it is bound |
| `Config.DatabaseConfig.GetUsername` | src/main/java/com/rana/voult_demo/config/DatabaseConfig.java:21-23 | returns the value the constructor or the last `setUsername` stored |
| `Config.DatabaseConfig.GetPassword` | src/main/java/com/rana/voult_demo/config/DatabaseConfig.java:29-31 | returns the value the constructor or the last `setPassword` stored |
| `Config.DatabaseConfig.GetHost` | src/main/java/com/rana/voult_demo/config/DatabaseConfig.java:37-39 | returns the value the constructor or the last `setHost` stored |
| `Config.DatabaseConfig.GetPort` | src/main/java/com/rana/voult_demo/config/DatabaseConfig.java:45-47 | returns the value the constructor or the last `setPort` stored |
| `Config.DatabaseConfig.GetDatabase` | src/main/java/com/rana/voult_demo/config/DatabaseConfig.java:53-55 | returns the value the constructor or the last `setDatabase` stored |
| `Config.DatabaseConfig.SetUsername` | src/main/java/com/rana/voult_demo/config/DatabaseConfig.java:21-27 | the getter then returns the value set; the other four fields are unchanged |
| `Config.DatabaseConfig.SetPassword` | src/main/java/com/rana/voult_demo/config/DatabaseConfig.java:29-35 | the getter then returns the value set; the other four fields are unchanged, and `toString` shows the same text as before |
| `Config.DatabaseConfig.SetHost` | src/main/java/com/rana/voult_demo/config/DatabaseConfig.java:37-43 | the getter then returns the value set; the other four fields are unchanged |
| `Config.DatabaseConfig.SetPort` | src/main/java/com/rana/voult_demo/config/DatabaseConfig.java:45-51 | the getter then returns the value set; the other four fields are unchanged |
| `Config.DatabaseConfig.SetDatabase` | src/main/java/com/rana/voult_demo/config/DatabaseConfig.java:53-59 | the getter then returns the value set; the other four fields are unchanged |
| `Config.DatabaseConfig.ToString` | src/main/java/com/rana/voult_demo/config/DatabaseConfig.java:61-70 | the text is a function of username, host, port and database alone, the password not being an input, and has the layout `Config.Display` states |
| `Config.ToStringIgnoresPassword` | src/main/java/com/rana/voult_demo/config/DatabaseConfig.java:61-70 | two configs that differ only in their passwords render identical strings |

## Left out

- `VaultProductionConfig.java` is not part of this model. It covers AppRole authentication, URI parsing, trust-store and certificate loading, and the SSL context. All of that is I/O and foreign library calls.
- `VaultTestController.java` and `PaymentController.java` are not part of this model. They are HTTP endpoints that copy bean fields into response maps.
- `PaymentProperties.java` is not part of this model. It is a getter/setter bean filled by property binding.
- Spring dependency injection is not modelled. The backend is passed to the service's constructor.
- Logging is not modelled. It has no effect on results.
- `Vault.VaultTemplate`: the backend's internals are not modelled: the network, versioning and the `metadata` part of a KV v2 response. A read answers exactly the body last written at that path. Whether a request fails depends only on two things: whether the backend is reachable, and whether the path is in a denied set. Real failures may depend on more than that (timeouts, per-operation policies).
- `JavaLang.ParseInt`: accepts only ASCII digits. `Integer.parseInt` also accepts other Unicode decimal digits, through `Character.digit`.
- `SecretValues.Show`: a floating-point or other non-integral value is `Other`, and it carries the text of its own `toString`. Doubles themselves are not modelled.
- `SecretValues.JavaMap.Put`: puts a new key after the existing ones in the iteration order. A `HashMap` orders keys by hash instead. The model builds only the one-entry map `{data=...}` with it, and for a single entry every order is the same.
- `Service.FlattenSecrets`: visits the keys in an arbitrary order rather than the map's iteration order. The result is a map, and the contract proves that it does not depend on the order.
- `Service.DatabaseConfig.GetJdbcUrl`: assumes `%d` renders ASCII digits. Under some locales, `String.format` can use other digits.
- `Service.FullPath`: client names, secret names, field names and the written map are never null in the model. In Java a null name renders as `null`, so `readClientSecret(null, "x")` reads `secret/data/null/x`, and writing a null map sends `{data=null}`. No file in the repository calls `MultiClientVaultService` at all: the controllers inject only `DatabaseConfig`, `VaultTemplate` and `PaymentProperties`.
- `SecretValues.JavaMap`: maps read from the backend are not required to be well formed (each key visited exactly once). Only `Show`'s text depends on the iteration order, and the maps the service builds itself are well formed.
- Concurrency is not modelled. Each call runs alone against the backend's state.
