/**
 * The database settings bean the application binds from the `database`
 * secret: five mutable properties, and a `toString` that never shows the
 * password.
 */
module Config {
  import opened Wrappers
  import opened JavaLang

  /** What `toString` prints in place of the password. */
  const MaskedPassword: string := "password='***MASKED***'"

  /** `s` occurs somewhere inside `text`. */
  predicate Occurs(s: string, text: string) {
    exists i :: 0 <= i <= |text| && s <= text[i..]
  }

  /** The text `toString` prints before the port: every field up to `port=`. */
  function DisplayHead(username: Option<string>, host: Option<string>): string {
    "DatabaseConfig{username='" + ShowString(username) + "', " + MaskedPassword + ", host='" + ShowString(host) + "', port="
  }

  /** The text `toString` prints after the port. */
  function DisplayTail(database: Option<string>): string {
    ", database='" + ShowString(database) + "'}"
  }

  /**
   * `text` is what `toString` prints for these four properties: the opening
   * with the single-quoted username, the mask, the single-quoted host, then
   * `port=` and the bare port (a text that parses back to it, or "null"),
   * and the single-quoted database before the closing brace.
   */
  predicate DisplayOf(text: string, username: Option<string>, host: Option<string>, port: Option<Int32>, database: Option<string>) {
    var head, tail := DisplayHead(username, host), DisplayTail(database);
    && |head| + |tail| <= |text|
    && text[..|head|] == head
    && text[|text| - |tail|..] == tail
    && (match port
        case None => text[|head|..|text| - |tail|] == "null"
        case Some(n) => ParseInt(text[|head|..|text| - |tail|]) == Some(n))
  }

  /**
   * The text `toString` produces from the four non-secret properties, in
   * the order username, password, host, port, database; the strings are
   * single-quoted, the port is not, and null renders as "null". Having no
   * password parameter, it cannot depend on the password.
   */
  function Display(username: Option<string>, host: Option<string>, port: Option<Int32>, database: Option<string>): (r: string)
    ensures Occurs(MaskedPassword, r)
    ensures var opening := "DatabaseConfig{username='" + ShowString(username) + "', ";
            |opening| + |MaskedPassword| <= |r| && r[..|opening|] == opening && r[|opening|..|opening| + |MaskedPassword|] == MaskedPassword
    ensures DisplayOf(r, username, host, port, database)
  {
    var head, tail := DisplayHead(username, host), DisplayTail(database);
    DisplayOpening(username, host, ShowInteger(port) + tail);
    assert head + ShowInteger(port) + tail == head + (ShowInteger(port) + tail);
    DisplayPort(head, port, tail);
    head + ShowInteger(port) + tail
  }

  /** The mask directly follows the quoted username, whatever comes after the head. */
  lemma DisplayOpening(username: Option<string>, host: Option<string>, after: string)
    ensures var opening := "DatabaseConfig{username='" + ShowString(username) + "', ";
            var r := DisplayHead(username, host) + after;
            && |opening| + |MaskedPassword| <= |r|
            && r[..|opening|] == opening
            && r[|opening|..|opening| + |MaskedPassword|] == MaskedPassword
            && Occurs(MaskedPassword, r)
  {
    var opening := "DatabaseConfig{username='" + ShowString(username) + "', ";
    var rest := ", host='" + ShowString(host) + "', port=" + after;
    assert DisplayHead(username, host) + after == opening + MaskedPassword + rest;
    MiddleOfConcat(opening, MaskedPassword, rest);
  }

  /** Between the head and the tail stands the port's text, which parses back to the port. */
  lemma DisplayPort(head: string, port: Option<Int32>, tail: string)
    ensures var r := head + ShowInteger(port) + tail;
            && |head| + |tail| <= |r|
            && r[..|head|] == head
            && r[|r| - |tail|..] == tail
            && (match port
                case None => r[|head|..|r| - |tail|] == "null"
                case Some(n) => ParseInt(r[|head|..|r| - |tail|]) == Some(n))
  {
    var r := head + ShowInteger(port) + tail;
    assert r[|head|..|r| - |tail|] == ShowInteger(port);
    assert r[|r| - |tail|..] == tail;
    if port.Some? {
      ParseIntOfDecimal(port.value);
    }
  }

  /** Where the middle part of a three-part text sits. */
  lemma MiddleOfConcat(head: string, middle: string, tail: string)
    ensures var r := head + middle + tail;
            && r[..|head|] == head
            && r[|head|..|head| + |middle|] == middle
            && middle <= r[|head|..]
  {
    var r := head + middle + tail;
    assert r[|head|..] == middle + tail;
  }

  class DatabaseConfig {
    var username: Option<string>
    var password: Option<string>
    var host: Option<string>
    var port: Option<Int32>
    var database: Option<string>

    /** Every property null until it is bound. */
    constructor ()
      ensures username.None? && password.None? && host.None? && port.None? && database.None?
    {
      username, password, host, port, database := None, None, None, None, None;
    }

    /** The value the last `SetUsername` stored (initially the constructor's). */
    function GetUsername(): (r: Option<string>)
      reads this
      ensures r == username
    {
      username
    }

    /** The value the last `SetPassword` stored (initially the constructor's). */
    function GetPassword(): (r: Option<string>)
      reads this
      ensures r == password
    {
      password
    }

    /** The value the last `SetHost` stored (initially the constructor's). */
    function GetHost(): (r: Option<string>)
      reads this
      ensures r == host
    {
      host
    }

    /** The value the last `SetPort` stored (initially the constructor's). */
    function GetPort(): (r: Option<Int32>)
      reads this
      ensures r == port
    {
      port
    }

    /** The value the last `SetDatabase` stored (initially the constructor's). */
    function GetDatabase(): (r: Option<string>)
      reads this
      ensures r == database
    {
      database
    }

    method SetUsername(value: Option<string>)
      modifies this
      ensures GetUsername() == value
      ensures password == old(password) && host == old(host) && port == old(port) && database == old(database)
    {
      username := value;
    }

    /** Changing the password never changes what `toString` shows. */
    method SetPassword(value: Option<string>)
      modifies this
      ensures GetPassword() == value
      ensures username == old(username) && host == old(host) && port == old(port) && database == old(database)
      ensures ToString() == old(ToString())
    {
      password := value;
    }

    method SetHost(value: Option<string>)
      modifies this
      ensures GetHost() == value
      ensures username == old(username) && password == old(password) && port == old(port) && database == old(database)
    {
      host := value;
    }

    method SetPort(value: Option<Int32>)
      modifies this
      ensures GetPort() == value
      ensures username == old(username) && password == old(password) && host == old(host) && database == old(database)
    {
      port := value;
    }

    method SetDatabase(value: Option<string>)
      modifies this
      ensures GetDatabase() == value
      ensures username == old(username) && password == old(password) && host == old(host) && port == old(port)
    {
      database := value;
    }

    /** `toString`: a function of the four non-secret properties alone. */
    function ToString(): (r: string)
      reads this
      ensures r == Display(username, host, port, database)
      ensures DisplayOf(r, username, host, port, database)
    {
      DisplayHead(username, host) + ShowInteger(port) + DisplayTail(database)
    }
  }

  /** Two configs that differ at most in their passwords print the same. */
  lemma ToStringIgnoresPassword(a: DatabaseConfig, b: DatabaseConfig)
    requires a.username == b.username && a.host == b.host && a.port == b.port && a.database == b.database
    ensures a.ToString() == b.ToString()
  {
  }
}
