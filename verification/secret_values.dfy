/**
 * The loosely typed values a secret document holds, as the JSON decoder of
 * the secrets backend hands them over (`Map<String, Object>`), and their
 * `toString`.
 */
module SecretValues {
  import opened Wrappers
  import opened JavaLang

  /**
   * A `java.util.Map<String, Object>`: its entries, and the order in which
   * its iteration (`forEach`, `toString`) visits the keys.
   */
  datatype JavaMap = JavaMap(order: seq<string>, entries: map<string, Value>)
  {
    /** `map.get(key)`: null when the key is missing or maps to null. */
    function Get(key: string): (v: Value)
      ensures v.Null? <==> key !in entries || entries[key].Null?
      ensures key in entries ==> v == entries[key]
    {
      if key in entries then entries[key] else Null
    }

    /** The iteration visits every key of the map exactly once. */
    predicate WellFormed() {
      && (forall i, j :: 0 <= i < j < |order| ==> order[i] != order[j])
      && (forall i :: 0 <= i < |order| ==> order[i] in entries)
      && (forall key :: key in entries ==> key in order)
    }

    /** `map.put(key, value)`: a new key is visited after the existing ones. */
    function Put(key: string, value: Value): (m: JavaMap)
      ensures WellFormed() ==> m.WellFormed()
      ensures m.Get(key) == value
      ensures m.entries == entries[key := value]
    {
      JavaMap(if key in entries then order else order + [key], entries[key := value])
    }
  }

  /** `new HashMap<>()`. */
  const EmptyMap: JavaMap := JavaMap([], map[])

  /**
   * A value stored in a secret: a string, an integral JSON number (Integer,
   * Long or BigInteger), a boolean, JSON null, a nested object, or anything
   * else (a floating-point number, say), which carries the text its own
   * `toString` gives.
   */
  datatype Value =
    | Str(s: string)
    | Int(i: int)
    | Bool(b: bool)
    | Null
    | Map(m: JavaMap)
    | Other(shown: string)

  /**
   * `String.valueOf(v)`: what `v.toString()` gives for a non-null value, and
   * "null" for null. A map renders as `AbstractMap.toString` does:
   * `{k1=v1, k2=v2}` in iteration order.
   */
  function Show(v: Value): (r: string)
    ensures v.Str? ==> r == v.s
    ensures v.Null? ==> r == "null"
    ensures v.Int? ==> r == IntToDecimal(v.i)
    ensures v.Int? ==> ParseInt(r) == if InInt32Range(v.i) then Some(v.i) else None
    ensures v.Bool? ==> r == if v.b then "true" else "false"
    ensures v.Other? ==> r == v.shown
    ensures v.Map? ==> |r| >= 2 && r[0] == '{' && r[|r| - 1] == '}'
    ensures v.Map? ==> r == "{" + Join(EntryTexts(v.m, v.m.order)) + "}"
    decreases v
  {
    match v
    case Str(s) => s
    case Int(i) => ParseIntOfDecimal(i); IntToDecimal(i)
    case Bool(b) => if b then "true" else "false"
    case Null => "null"
    case Map(m) => "{" + Join(EntryTexts(m, m.order)) + "}"
    case Other(shown) => shown
  }

  /** The `key=value` texts of the entries of `m` named by `keys`, in that order. */
  function EntryTexts(m: JavaMap, keys: seq<string>): seq<string>
    decreases m, |keys|
  {
    if keys == [] then []
    else if keys[0] in m.entries then [keys[0] + "=" + Show(m.entries[keys[0]])] + EntryTexts(m, keys[1..])
    else EntryTexts(m, keys[1..])
  }

  /** A well-formed map's `toString` shows one `key=value` text per key, in iteration order. */
  lemma {:induction false} EntryTextsLength(m: JavaMap, keys: seq<string>)
    requires forall i, j :: 0 <= i < j < |keys| ==> keys[i] != keys[j]
    requires forall i :: 0 <= i < |keys| ==> keys[i] in m.entries
    ensures |EntryTexts(m, keys)| == |keys|
    ensures forall i :: 0 <= i < |keys| ==> EntryTexts(m, keys)[i] == keys[i] + "=" + Show(m.entries[keys[i]])
  {
    if keys != [] {
      EntryTextsLength(m, keys[1..]);
    }
  }

  /** The texts separated by ", ". */
  function Join(texts: seq<string>): string {
    if texts == [] then ""
    else if |texts| == 1 then texts[0]
    else texts[0] + ", " + Join(texts[1..])
  }
}
