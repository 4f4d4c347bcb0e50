/**
 * Configuration lookup: a key is looked up in the bundled `.env` file, then in the process
 * environment, then in Info.plist. The file, the environment and the plist are given as
 * values; reading them is not modelled.
 */
module Environment {
  import opened Wrappers
  import opened Text

  /** `Keys.apiKey`. */
  const ApiKeyName := "API_KEY"

  /** An Info.plist entry: only a string value can be returned. */
  datatype PlistValue = PlistString(text: string) | PlistOther

  /**
   * Where values can come from. `envFile` is the contents of the bundled `.env` file, or
   * `None` when the file is missing or cannot be read as UTF-8 (both fall through).
   */
  datatype Sources = Sources(
    envFile: Option<string>,
    processEnvironment: map<string, string>,
    infoPlist: map<string, PlistValue>)

  predicate IsEquals(c: char)
  {
    c == '='
  }

  /**
   * One `.env` line: it holds `key` when splitting it on '=' gives exactly two pieces and
   * the first, trimmed of spaces, is `key`; the value is the second piece trimmed of spaces.
   */
  function ParseLine(line: string, key: string): (r: Option<string>)
    ensures r.Some? ==> CountWhere(line, IsEquals) == 1 && !Contains(r.value, "=")
  {
    var parts := Components(line, IsEquals);
    ComponentsCount(line, IsEquals);
    if |parts| == 2 && TrimSpaces(parts[0]) == key then
      var value := TrimSpaces(parts[1]);
      TrimKeepsAbsent(parts[1], IsWhitespace, IsEquals);
      NoEqualsNotContained(value);
      Some(value)
    else None
  }

  lemma NoEqualsNotContained(s: string)
    requires NoneSatisfy(s, IsEquals)
    ensures !Contains(s, "=")
  {
    ContainsAt(s, "=");
    forall i ensures !OccursAt(s, "=", i) {
      if 0 <= i < |s| {
        assert s[i..i + 1][0] == s[i];
      }
    }
  }

  /** The value of the first line that holds `key`. */
  function EnvFileLookup(lines: seq<string>, key: string): (r: Option<string>)
    ensures r.Some? ==> !Contains(r.value, "=")
    decreases |lines|
  {
    if lines == [] then None
    else if ParseLine(lines[0], key).Some? then ParseLine(lines[0], key)
    else EnvFileLookup(lines[1..], key)
  }

  /** The lines of the file: its pieces between newline characters. */
  function Lines(contents: string): seq<string>
  {
    Components(contents, IsNewline)
  }

  /** The `.env` file's value for `key`, if the file is there and has one. */
  function FromEnvFile(src: Sources, key: string): Option<string>
  {
    if src.envFile.Some? then EnvFileLookup(Lines(src.envFile.value), key) else None
  }

  /** The Info.plist's value for `key`, if it is a string. */
  function FromInfoPlist(src: Sources, key: string): Option<string>
  {
    if key in src.infoPlist && src.infoPlist[key].PlistString? then Some(src.infoPlist[key].text)
    else None
  }

  /** `getValue(_:)` as a function: the `.env` file, then the environment, then the plist. */
  function Lookup(src: Sources, key: string): (r: Option<string>)
    ensures r.None? ==> key !in src.processEnvironment
    ensures r.Some? && Contains(r.value, "=") ==> key in src.processEnvironment || key in src.infoPlist
  {
    if FromEnvFile(src, key).Some? then FromEnvFile(src, key)
    else if key in src.processEnvironment then Some(src.processEnvironment[key])
    else FromInfoPlist(src, key)
  }

  /** `apiKey`. */
  function ApiKey(src: Sources): (r: Option<string>)
    ensures r.None? ==>
      ApiKeyName !in src.processEnvironment &&
      (ApiKeyName !in src.infoPlist || !src.infoPlist[ApiKeyName].PlistString?)
  {
    Lookup(src, ApiKeyName)
  }

  /** `getValue(_:)`: the loop over the file's lines returns at the first line holding `key`. */
  method GetValue(src: Sources, key: string) returns (value: Option<string>)
    ensures value == Lookup(src, key)
  {
    if src.envFile.Some? {
      var lines := Lines(src.envFile.value);
      var i := 0;
      while i < |lines|
        invariant 0 <= i <= |lines|
        invariant EnvFileLookup(lines, key) == EnvFileLookup(lines[i..], key)
      {
        var parts := Components(lines[i], IsEquals);
        if |parts| == 2 && TrimSpaces(parts[0]) == key {
          return Some(TrimSpaces(parts[1]));
        }
        assert lines[i..][1..] == lines[i + 1..];
        i := i + 1;
      }
    }
    if key in src.processEnvironment {
      return Some(src.processEnvironment[key]);
    }
    if key in src.infoPlist && src.infoPlist[key].PlistString? {
      return Some(src.infoPlist[key].text);
    }
    return None;
  }

  // ---------------------------------------------------------------------------------------
  // Properties
  // ---------------------------------------------------------------------------------------

  /** A line `k=v` with no other '=' holds the trimmed `v` under the trimmed `k`. */
  lemma ParseLineRoundTrip(k: string, v: string)
    requires NoneSatisfy(k, IsEquals) && NoneSatisfy(v, IsEquals)
    ensures ParseLine(k + "=" + v, TrimSpaces(k)) == Some(TrimSpaces(v))
  {
    assert k + "=" + v == k + ['='] + v;
    ComponentsAfterFirst(k, '=', v, IsEquals);
    ComponentsNoSeparator(v, IsEquals);
  }

  /** The file has no value exactly when no line holds the key. */
  lemma {:induction false} EnvFileLookupNone(lines: seq<string>, key: string)
    ensures EnvFileLookup(lines, key).None? <==>
      forall i :: 0 <= i < |lines| ==> ParseLine(lines[i], key).None?
    decreases |lines|
  {
    if lines != [] {
      EnvFileLookupNone(lines[1..], key);
      assert forall i :: 1 <= i < |lines| ==> lines[i] == lines[1..][i - 1];
    }
  }

  /** The first line that holds the key gives the value; later lines do not matter. */
  lemma {:induction false} EnvFileFirstMatch(lines: seq<string>, key: string, i: int)
    requires 0 <= i < |lines| && ParseLine(lines[i], key).Some?
    requires forall j :: 0 <= j < i ==> ParseLine(lines[j], key).None?
    ensures EnvFileLookup(lines, key) == ParseLine(lines[i], key)
    decreases i
  {
    if i > 0 {
      assert lines[1..][i - 1] == lines[i];
      EnvFileFirstMatch(lines[1..], key, i - 1);
    }
  }

  /**
   * The lookup finds nothing exactly when the file is missing or no line of it holds the
   * key, the environment lacks the key, and the plist has no string under it.
   */
  lemma LookupNone(src: Sources, key: string)
    ensures Lookup(src, key).None? <==>
      (src.envFile.None? ||
       forall i :: 0 <= i < |Lines(src.envFile.value)| ==> ParseLine(Lines(src.envFile.value)[i], key).None?) &&
      key !in src.processEnvironment &&
      (key !in src.infoPlist || !src.infoPlist[key].PlistString?)
  {
    if src.envFile.Some? {
      EnvFileLookupNone(Lines(src.envFile.value), key);
    }
  }

  /**
   * Precedence: the first line of the `.env` file that holds the key decides, whatever the
   * environment and the plist say.
   */
  lemma EnvFileWins(src: Sources, key: string, i: int)
    requires src.envFile.Some?
    requires 0 <= i < |Lines(src.envFile.value)| && ParseLine(Lines(src.envFile.value)[i], key).Some?
    requires forall j :: 0 <= j < i ==> ParseLine(Lines(src.envFile.value)[j], key).None?
    ensures Lookup(src, key) == ParseLine(Lines(src.envFile.value)[i], key)
  {
    EnvFileFirstMatch(Lines(src.envFile.value), key, i);
  }

  /** Precedence: with no line of the file holding the key, the environment beats the plist. */
  lemma ProcessEnvironmentBeforePlist(src: Sources, key: string)
    requires src.envFile.Some? ==>
      forall i :: 0 <= i < |Lines(src.envFile.value)| ==> ParseLine(Lines(src.envFile.value)[i], key).None?
    requires key in src.processEnvironment
    ensures Lookup(src, key) == Some(src.processEnvironment[key])
  {
    if src.envFile.Some? {
      EnvFileLookupNone(Lines(src.envFile.value), key);
    }
  }
}
