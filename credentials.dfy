/**
 * `getKeys` (`lib/credentials.js`): the API keys come from the environment
 * when both are set there; otherwise the lines of `key.txt` are scanned for
 * `SecretId：…` and `SecretKey：…` (a full-width colon), each key taken from
 * the first line that names it while it is still unset. A line that names a
 * missing key but has no full-width colon throws; the throw is caught and
 * whatever was found before it is kept.
 */
module Credentials {
  import opened Wrappers
  import opened JsText
  import opened JsValue

  /** `{ secretId, secretKey }`, each possibly undefined. */
  datatype Keys = Keys(secretId: Option<string>, secretKey: Option<string>)

  /** What every route requires before calling the API: both keys truthy (`!secretId || !secretKey` fails it). */
  predicate HasKeys(k: Keys) {
    TruthyText(k.secretId) && TruthyText(k.secretKey)
  }

  /** The separator of a `key.txt` line: U+FF1A FULLWIDTH COLON. */
  const FieldSeparator: char := '\U{FF1A}'

  /**
   * `line.split("：")[1].trim()`: the trimmed text between the first and the
   * second separator, or none when the line has no separator (the index gives
   * `undefined` and `trim` throws).
   */
  function FieldValue(line: string): (r: Option<string>)
    ensures r.Some? <==> FieldSeparator in line
    ensures r.Some? ==> Trim(r.value) == r.value && FieldSeparator !in r.value
  {
    var parts := Split(line, FieldSeparator);
    SplitHasSecondPart(line, FieldSeparator);
    if |parts| >= 2 then
      TrimIdempotent(parts[1]);
      assert FieldSeparator !in Trim(parts[1]) by {
        var t := TrimStart(parts[1]);
        assert forall c :: c in Trim(parts[1]) ==> c in t;
        assert forall c :: c in t ==> c in parts[1];
      }
      Some(Trim(parts[1]))
    else None
  }

  /** The scan state: the keys so far, and whether a line threw. */
  datatype Scan = Scan(keys: Keys, aborted: bool)

  /** Whether a line is read for the id (it names `SecretId` and the id is still falsy). */
  predicate WantsId(k: Keys, line: string) {
    Contains(line, "SecretId") && !TruthyText(k.secretId)
  }

  /** Whether a line is read for the key (it names `SecretKey` and the key is still falsy). */
  predicate WantsKey(k: Keys, line: string) {
    Contains(line, "SecretKey") && !TruthyText(k.secretKey)
  }

  /** One `forEach` step: the `SecretId` test, then the `SecretKey` test; a read of a line without separator throws. */
  function ReadLine(k: Keys, line: string): (s: Scan)
    ensures s.aborted <==> (WantsId(k, line) || WantsKey(k, line)) && FieldSeparator !in line
    ensures s.keys.secretId == (if WantsId(k, line) && !s.aborted then FieldValue(line) else k.secretId)
    ensures s.keys.secretKey == (if WantsKey(k, line) && !s.aborted then FieldValue(line) else k.secretKey)
  {
    var v := FieldValue(line);
    if WantsId(k, line) && v.None? then Scan(k, true)
    else
      var k1 := if WantsId(k, line) then k.(secretId := v) else k;
      if WantsKey(k, line) && v.None? then Scan(k1, true)
      else Scan(if WantsKey(k, line) then k1.(secretKey := v) else k1, false)
  }

  /** The `forEach` over `lines`, from the keys `k`, up to and including the first line that throws. */
  function ScanLines(k: Keys, lines: seq<string>): Scan
    decreases |lines|
  {
    if |lines| == 0 then Scan(k, false)
    else
      var s := ScanLines(k, lines[..|lines| - 1]);
      if s.aborted then s else ReadLine(s.keys, lines[|lines| - 1])
  }

  /**
   * `getKeys`, with the two environment variables and the contents of
   * `key.txt` (none when the file does not exist) as inputs.
   */
  method GetKeys(envSecretId: Option<string>, envSecretKey: Option<string>, keyFile: Option<string>)
    returns (keys: Keys)
    ensures HasKeys(Keys(envSecretId, envSecretKey)) || keyFile.None? ==> keys == Keys(envSecretId, envSecretKey)
    ensures !HasKeys(Keys(envSecretId, envSecretKey)) && keyFile.Some? ==>
      keys == ScanLines(Keys(envSecretId, envSecretKey), Split(keyFile.value, '\n')).keys
  {
    keys := Keys(envSecretId, envSecretKey);
    if HasKeys(keys) || keyFile.None? {
      return;
    }
    var lines := Split(keyFile.value, '\n');
    var i := 0;
    while i < |lines|
      invariant 0 <= i <= |lines|
      invariant ScanLines(Keys(envSecretId, envSecretKey), lines[..i]) == Scan(keys, false)
    {
      assert lines[..i + 1][..i] == lines[..i];
      var s := ReadLine(keys, lines[i]);
      if s.aborted {
        ScanStops(Keys(envSecretId, envSecretKey), lines, i + 1);
        assert lines[..|lines|] == lines;
        return;
      }
      keys := s.keys;
      i := i + 1;
    }
    assert lines[..i] == lines;
  }

  /** A scan that has thrown reads no further line. */
  lemma {:induction false} ScanStops(k: Keys, lines: seq<string>, n: nat)
    requires n <= |lines|
    requires ScanLines(k, lines[..n]).aborted
    ensures ScanLines(k, lines) == ScanLines(k, lines[..n])
    decreases |lines| - n
  {
    if n < |lines| {
      assert lines[..n + 1][..n] == lines[..n];
      ScanStops(k, lines, n + 1);
    } else {
      assert lines[..n] == lines;
    }
  }

  /** A key that is already truthy is never replaced by the file: the environment wins, and so does an earlier line. */
  lemma {:induction false} SetKeysKept(k: Keys, lines: seq<string>)
    ensures TruthyText(k.secretId) ==> ScanLines(k, lines).keys.secretId == k.secretId
    ensures TruthyText(k.secretKey) ==> ScanLines(k, lines).keys.secretKey == k.secretKey
    decreases |lines|
  {
    if |lines| > 0 {
      SetKeysKept(k, lines[..|lines| - 1]);
    }
  }

  /** Every key the file supplies is the field of some line that names it. */
  lemma KeysComeFromNamingLines(k: Keys, lines: seq<string>)
    ensures var id := ScanLines(k, lines).keys.secretId;
      id == k.secretId || exists i :: 0 <= i < |lines| && Contains(lines[i], "SecretId") && FieldValue(lines[i]) == id
    ensures var key := ScanLines(k, lines).keys.secretKey;
      key == k.secretKey || exists i :: 0 <= i < |lines| && Contains(lines[i], "SecretKey") && FieldValue(lines[i]) == key
  {
    IdFromNamingLine(k, lines);
    KeyFromNamingLine(k, lines);
  }

  /** The id half of `KeysComeFromNamingLines`. */
  lemma {:induction false} IdFromNamingLine(k: Keys, lines: seq<string>)
    ensures var id := ScanLines(k, lines).keys.secretId;
      id == k.secretId || exists i :: 0 <= i < |lines| && Contains(lines[i], "SecretId") && FieldValue(lines[i]) == id
    decreases |lines|
  {
    if |lines| > 0 {
      var last := |lines| - 1;
      var front := lines[..last];
      IdFromNamingLine(k, front);
      var s := ScanLines(k, front);
      var id := ScanLines(k, lines).keys.secretId;
      if !s.aborted && id != s.keys.secretId {
        assert Contains(lines[last], "SecretId") && FieldValue(lines[last]) == id;
      } else if id != k.secretId {
        assert id == s.keys.secretId;
        var i :| 0 <= i < |front| && Contains(front[i], "SecretId") && FieldValue(front[i]) == id;
        assert lines[i] == front[i];
      }
    }
  }

  /** The key half of `KeysComeFromNamingLines`. */
  lemma {:induction false} KeyFromNamingLine(k: Keys, lines: seq<string>)
    ensures var key := ScanLines(k, lines).keys.secretKey;
      key == k.secretKey || exists i :: 0 <= i < |lines| && Contains(lines[i], "SecretKey") && FieldValue(lines[i]) == key
    decreases |lines|
  {
    if |lines| > 0 {
      var last := |lines| - 1;
      var front := lines[..last];
      KeyFromNamingLine(k, front);
      var s := ScanLines(k, front);
      var key := ScanLines(k, lines).keys.secretKey;
      if !s.aborted && key != s.keys.secretKey {
        assert Contains(lines[last], "SecretKey") && FieldValue(lines[last]) == key;
      } else if key != k.secretKey {
        assert key == s.keys.secretKey;
        var i :| 0 <= i < |front| && Contains(front[i], "SecretKey") && FieldValue(front[i]) == key;
        assert lines[i] == front[i];
      }
    }
  }
}
