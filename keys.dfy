/** Loading the wallet keys from a comma-separated configuration value, and the key-count guard. */
module KeyConfig {
  import opened MintConfig

  const SEPARATOR: char := ','

  /** The number of separators in a string. */
  function SeparatorCount(s: string): nat {
    if s == [] then 0
    else (if s[0] == SEPARATOR then 1 else 0) + SeparatorCount(s[1..])
  }

  /** Splits a string at every separator, keeping empty pieces: "" gives [""], "a,,b" gives ["a", "", "b"]. */
  function Split(s: string): (parts: seq<string>)
    ensures |parts| == SeparatorCount(s) + 1
    ensures forall i :: 0 <= i < |parts| ==> SEPARATOR !in parts[i]
  {
    if s == [] then [""]
    else
      var rest := Split(s[1..]);
      if s[0] == SEPARATOR then [""] + rest
      else [[s[0]] + rest[0]] + rest[1..]
  }

  /** Glues pieces back together with one separator between neighbours. */
  function Join(parts: seq<string>): string
    requires |parts| >= 1
  {
    if |parts| == 1 then parts[0] else parts[0] + [SEPARATOR] + Join(parts[1..])
  }

  /** Splitting loses nothing: joining the pieces gives back the original string. */
  lemma {:induction false} JoinSplit(s: string)
    ensures Join(Split(s)) == s
  {
    if s != [] {
      var rest := Split(s[1..]);
      JoinSplit(s[1..]);
      if s[0] == SEPARATOR {
        assert Split(s)[1..] == rest;
      } else {
        var parts := Split(s);
        assert parts[0] == [s[0]] + rest[0];
        if |rest| == 1 {
          assert parts == [[s[0]] + rest[0]];
        } else {
          assert parts[1..] == rest[1..];
          assert Join(rest) == rest[0] + [SEPARATOR] + Join(rest[1..]);
        }
        assert s == [s[0]] + s[1..];
      }
    }
  }

  /** Splitting a join of separator-free pieces gives back exactly those pieces. */
  lemma {:induction false} SplitJoin(parts: seq<string>)
    requires |parts| >= 1
    requires forall i :: 0 <= i < |parts| ==> SEPARATOR !in parts[i]
    ensures Split(Join(parts)) == parts
  {
    if |parts| == 1 {
      SplitPrefix(parts[0], []);
      assert parts[0] + [] == parts[0];
      assert parts[0] + Split([])[0] == parts[0];
    } else {
      var tail := Join(parts[1..]);
      SplitPrefix(parts[0], [SEPARATOR] + tail);
      SplitJoin(parts[1..]);
      assert Split([SEPARATOR] + tail) == [""] + Split(tail) by {
        assert ([SEPARATOR] + tail)[1..] == tail;
      }
      assert Join(parts) == parts[0] + ([SEPARATOR] + tail);
      assert parts[0] + "" == parts[0];
      assert ([""] + parts[1..])[1..] == parts[1..];
      assert parts == [parts[0]] + parts[1..];
    }
  }

  /** A separator-free prefix is glued onto the first piece of what follows it. */
  lemma {:induction false} SplitPrefix(p: string, rest: string)
    requires SEPARATOR !in p
    ensures Split(p + rest) == [p + Split(rest)[0]] + Split(rest)[1..]
  {
    if p != [] {
      SplitPrefix(p[1..], rest);
      assert (p + rest)[1..] == p[1..] + rest;
      assert (p + rest)[0] == p[0];
      assert [p[0]] + (p[1..] + Split(rest)[0]) == p + Split(rest)[0];
    } else {
      var r := Split(rest);
      assert p + rest == rest && p + r[0] == r[0];
      assert r == [r[0]] + r[1..];
    }
  }

  /** The script's key list: the configured value split at commas, or no keys at all when it is unset. */
  function LoadKeys(configured: Option<string>): (keys: seq<string>)
    ensures configured.None? ==> keys == []
    ensures configured.Some? ==> |keys| == SeparatorCount(configured.value) + 1
    ensures configured.Some? ==> Join(keys) == configured.value
  {
    match configured
    case None => []
    case Some(s) => JoinSplit(s); Split(s)
  }

  /** The fatal configuration error. The count found is the model's own addition: the script prints a fixed message. */
  datatype ConfigError = WrongKeyCount(found: nat)

  /** The guard run before anything else: exactly REQUIRED_KEY_COUNT keys, or a fatal configuration error. */
  function CheckKeyCount(keys: seq<string>): (r: Result<seq<string>, ConfigError>)
    ensures r.Ok? <==> |keys| == REQUIRED_KEY_COUNT
    ensures r.Ok? ==> r.value == keys
    ensures r.Err? ==> r.error == WrongKeyCount(|keys|)
  {
    if |keys| != REQUIRED_KEY_COUNT then Err(WrongKeyCount(|keys|)) else Ok(keys)
  }

  /** A set configuration value passes the guard exactly when it holds REQUIRED_KEY_COUNT - 1 commas; an unset one never does. */
  lemma GuardPassesIffNineSeparators(configured: Option<string>)
    ensures CheckKeyCount(LoadKeys(configured)).Ok?
        <==> configured.Some? && SeparatorCount(configured.value) == REQUIRED_KEY_COUNT - 1
  {
  }
}
