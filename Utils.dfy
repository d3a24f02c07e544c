/**
 * The two utility functions of the application: building a log line from a
 * prefix and a message, and checking that a configuration dictionary holds
 * the keys the application needs.
 */
module Utils {
  import opened Wrappers

  /** The prefix a message gets when the caller names none. */
  const DefaultPrefix: string := "INFO"

  /** What stands between the prefix and the message. */
  const Separator: string := ": "

  /**
   * The formatted message: the prefix, a colon and a space, then the message.
   * The prefix and the message are arbitrary strings; neither is trimmed or
   * escaped.
   */
  function FormatMessage(message: string, prefix: string := DefaultPrefix): (r: string)
    ensures |r| == |prefix| + 2 + |message|
    ensures prefix + Separator <= r
    ensures r[|r| - |message|..] == message
  {
    prefix + Separator + message
  }

  /**
   * The inverse of FormatMessage for a known prefix: the message carried by
   * `line` when `line` begins with `prefix` and the separator, None otherwise.
   */
  function MessageOf(line: string, prefix: string): (r: Option<string>)
    ensures r.Some? <==> prefix + Separator <= line
    ensures r.Some? ==> |r.value| == |line| - |prefix| - 2
    ensures r.Some? ==> r.value == line[|line| - |r.value|..]
  {
    var head := prefix + Separator;
    if head <= line then Some(line[|head|..]) else None
  }

  /** Formatting and then taking the message back out gives the message. */
  lemma FormatThenParse(message: string, prefix: string)
    ensures MessageOf(FormatMessage(message, prefix), prefix) == Some(message)
  {
  }

  /** Every line MessageOf accepts is the formatting of the message it finds. */
  lemma ParseThenFormat(line: string, prefix: string, message: string)
    requires MessageOf(line, prefix) == Some(message)
    ensures FormatMessage(message, prefix) == line
  {
  }

  /** Under one prefix, different messages give different lines. */
  lemma FormatMessageInjective(m1: string, m2: string, prefix: string)
    requires FormatMessage(m1, prefix) == FormatMessage(m2, prefix)
    ensures m1 == m2
  {
  }

  /**
   * The prefix cannot in general be recovered from the line: a prefix that
   * itself holds the separator makes two different (message, prefix) pairs
   * give the same line.
   */
  lemma FormatMessageAmbiguous()
    ensures FormatMessage("b: c", "a") == FormatMessage("c", "a: b")
  {
  }

  /** An empty message leaves just the prefix and the separator. */
  lemma FormatEmptyMessage(prefix: string)
    ensures FormatMessage("", prefix) == prefix + ": "
  {
  }

  /** The keys a valid configuration dictionary must hold. */
  const RequiredKeys: set<string> := {"debug", "port"}

  /**
   * The required keys listed in one iteration order. AllPresent does not
   * depend on the order, so any listing of RequiredKeys gives the same
   * verdict.
   */
  const RequiredKeyList: seq<string> := ["debug", "port"]

  lemma RequiredKeyListListsRequiredKeys()
    ensures forall k :: k in RequiredKeyList <==> k in RequiredKeys
  {
  }

  /** Whether every key of `keys` is present in `config`, looking at no value. */
  function AllPresent<V>(keys: seq<string>, config: map<string, V>): (r: bool)
    ensures r <==> forall k :: k in keys ==> k in config
  {
    if |keys| == 0 then true
    else keys[0] in config && AllPresent(keys[1..], config)
  }

  /**
   * Whether the configuration dictionary holds every required key. Only the
   * keys are looked at; the values may be anything.
   */
  function ValidateConfig<V>(config: map<string, V>): (r: bool)
    ensures r <==> "debug" in config && "port" in config
    ensures r <==> RequiredKeys <= config.Keys
  {
    AllPresent(RequiredKeyList, config)
  }

  /** Adding keys to a valid dictionary keeps it valid. */
  lemma ValidateConfigMonotone<V>(config: map<string, V>, extra: map<string, V>)
    requires ValidateConfig(config)
    ensures ValidateConfig(config + extra)
  {
  }

  /** Two dictionaries with the same keys get the same verdict, whatever their values. */
  lemma ValidateConfigIgnoresValues<V, W>(c: map<string, V>, d: map<string, W>)
    requires c.Keys == d.Keys
    ensures ValidateConfig(c) == ValidateConfig(d)
  {
  }

  /** Removing a required key from any dictionary makes it invalid. */
  lemma RemovingRequiredKeyInvalidates<V>(config: map<string, V>, key: string)
    requires key in RequiredKeys
    ensures !ValidateConfig(config - {key})
  {
  }
}
