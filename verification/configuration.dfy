/**
 * The configuration snapshot the diagnostics read: a map from option name to
 * value, with the typed accessors of Hadoop's Configuration and the defaults
 * each caller passes in. A key absent from the map is an unset option.
 */
module Configuration {
  import opened Results
  import opened JavaStrings

  type Conf = map<string, string>

  /** Configuration.get(key): the raw value, or null when unset. */
  function Get(conf: Conf, key: string): (v: Option<string>)
    ensures v.None? <==> key !in conf
    ensures v.Some? ==> v.value == conf[key]
  {
    if key in conf then Some(conf[key]) else None
  }

  /** Configuration.get(key, default): the raw value, or the default when unset. */
  function GetOr(conf: Conf, key: string, default: string): (v: string)
    ensures key in conf ==> v == conf[key]
    ensures key !in conf ==> v == default
  {
    match Get(conf, key)
    case Some(value) => value
    case None => default
  }

  /**
   * Configuration.getTrimmed(key, default): a set value is trimmed, even down
   * to "", and the default is returned as it is.
   */
  function GetTrimmed(conf: Conf, key: string, default: string): (v: string)
    ensures key !in conf ==> v == default
    ensures key in conf ==> v == Trim(conf[key]) && |v| <= |conf[key]|
  {
    match Get(conf, key)
    case Some(value) => Trim(value)
    case None => default
  }

  /**
   * Configuration.getBoolean(key, default): "true" or "false" in any case, after
   * trimming; an unset, empty or unrecognised value gives the default.
   */
  function GetBoolean(conf: Conf, key: string, default: bool): (b: bool)
    ensures key !in conf ==> b == default
    ensures b != default ==>
      key in conf && ToLowerAscii(Trim(conf[key])) == (if b then "true" else "false")
  {
    if key !in conf then default
    else
      var v := ToLowerAscii(Trim(conf[key]));
      if v == "true" then true
      else if v == "false" then false
      else default
  }

  /** A set flag reading "true" gives true and one reading "false" gives false, whatever the default. */
  lemma GetBooleanReadsText(conf: Conf, key: string, default: bool)
    ensures key in conf && ToLowerAscii(Trim(conf[key])) == "true" ==> GetBoolean(conf, key, default)
    ensures key in conf && ToLowerAscii(Trim(conf[key])) == "false" ==> !GetBoolean(conf, key, default)
  {
  }

  /** Setting one option leaves every flag read from another as it was. */
  lemma GetBooleanOfOtherKey(conf: Conf, key: string, other: string, value: string, default: bool)
    requires key != other
    ensures GetBoolean(conf[other := value], key, default) == GetBoolean(conf, key, default)
  {
  }

  /** A word of lower-case ASCII letters reads back as itself once trimmed and lower-cased. */
  lemma PlainWordReadsBack(s: string)
    requires forall k :: 0 <= k < |s| ==> 'a' <= s[k] <= 'z'
    ensures ToLowerAscii(Trim(s)) == s
  {
    TrimOfTrimmed(s);
    LowerOfLower(s);
  }

  /** Setting a flag to "true" or "false" overrides whatever default the caller passes. */
  lemma {:induction false} GetBooleanOfLiteral(conf: Conf, key: string, value: bool, default: bool)
    ensures GetBoolean(conf[key := if value then "true" else "false"], key, default) == value
  {
    PlainWordReadsBack(if value then "true" else "false");
  }
}
