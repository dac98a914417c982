/**
 * The JSON sniffing of pkg/nidhogg/decoder.go: a buffer counts as JSON when
 * its first character after leading white space is `{`, and such a buffer
 * bypasses the YAML conversion.
 *
 * Buffers are sequences of decoded characters (runes); UTF-8 decoding is
 * not modelled. The YAML-to-JSON conversion is a parameter.
 */
module Decoder {
  import opened Wrappers

  /** unicode.IsSpace: the Latin-1 white space and the other White_Space code points. */
  predicate IsSpace(c: char)
    ensures c as int < 0x80 ==> (IsSpace(c) <==> c in "\t\n\U{000B}\U{000C}\r ")
    ensures IsSpace(c) ==> 0x09 <= c as int <= 0x3000
    ensures c == '{' ==> !IsSpace(c)
  {
    var n := c as int;
    if n <= 0xFF then
      n == 0x09 || n == 0x0A || n == 0x0B || n == 0x0C || n == 0x0D || n == 0x20 || n == 0x85 || n == 0xA0
    else
      n == 0x1680 || (0x2000 <= n <= 0x200A) || n == 0x2028 || n == 0x2029 ||
      n == 0x202F || n == 0x205F || n == 0x3000
  }

  predicate AllSpace(s: seq<char>) {
    forall i :: 0 <= i < |s| ==> IsSpace(s[i])
  }

  /** k is where the leading white space of buf ends. */
  predicate SpaceEndsAt(buf: seq<char>, k: int) {
    0 <= k <= |buf| && AllSpace(buf[..k]) && (k == |buf| || !IsSpace(buf[k]))
  }

  /** The leading white space of a buffer ends at one place only. */
  lemma SpaceEndsAtUnique(buf: seq<char>, k: int, m: int)
    requires SpaceEndsAt(buf, k) && SpaceEndsAt(buf, m)
    ensures k == m
  {
    assert forall i :: 0 <= i < k ==> buf[..k][i] == buf[i];
    assert forall i :: 0 <= i < m ==> buf[..m][i] == buf[i];
  }

  /** bytes.TrimLeftFunc(buf, unicode.IsSpace): the suffix after the leading white space. */
  function TrimLeftSpace(buf: seq<char>): (r: seq<char>)
    ensures |r| <= |buf| && r == buf[|buf| - |r|..]
    ensures SpaceEndsAt(buf, |buf| - |r|)
  {
    if buf != [] && IsSpace(buf[0]) then
      var r := TrimLeftSpace(buf[1..]);
      assert buf[1..][..|buf[1..]| - |r|] == buf[1..|buf| - |r|];
      assert buf[..|buf| - |r|] == [buf[0]] + buf[1..|buf| - |r|];
      r
    else
      assert buf[..0] == [];
      buf
  }

  /** hasPrefix: the first non-white-space characters of buf are prefix. */
  function HasPrefix(buf: seq<char>, prefix: seq<char>): (r: bool)
    ensures r <==> exists k :: SpaceEndsAt(buf, k) && prefix <= buf[k..]
    ensures prefix == [] ==> r
  {
    var t := TrimLeftSpace(buf);
    var k0 := |buf| - |t|;
    assert forall k :: SpaceEndsAt(buf, k) ==> k == k0 by {
      forall k | SpaceEndsAt(buf, k) ensures k == k0 {
        SpaceEndsAtUnique(buf, k, k0);
      }
    }
    prefix <= t
  }

  /** The prefix whose presence marks a buffer as JSON. */
  const JsonPrefix: seq<char> := "{"

  /** hasJSONPrefix: the first non-white-space character of buf is `{`. */
  function HasJSONPrefix(buf: seq<char>): (r: bool)
    ensures r <==> exists k :: SpaceEndsAt(buf, k) && k < |buf| && buf[k] == '{'
  {
    var r := HasPrefix(buf, JsonPrefix);
    assert forall k :: SpaceEndsAt(buf, k) ==> (JsonPrefix <= buf[k..] <==> k < |buf| && buf[k] == '{') by {
      forall k | SpaceEndsAt(buf, k) ensures JsonPrefix <= buf[k..] <==> k < |buf| && buf[k] == '{' {
        if k < |buf| {
          assert buf[k..][0] == buf[k];
        }
      }
    }
    r
  }

  /**
   * toJSON: a buffer that looks like JSON is returned unchanged; any other
   * goes through the YAML conversion, whose outcome is `yamlToJSON`.
   */
  function ToJSON(data: seq<char>, yamlToJSON: Result<seq<char>, string>): (r: Result<seq<char>, string>)
    ensures HasJSONPrefix(data) ==> r == Success(data)
    ensures !HasJSONPrefix(data) ==> r == yamlToJSON
  {
    if HasJSONPrefix(data) then Success(data) else yamlToJSON
  }

  /** Trimming ignores any white space put in front of the buffer. */
  lemma {:induction false} TrimLeftSpaceSkipsSpace(ws: seq<char>, buf: seq<char>)
    requires AllSpace(ws)
    ensures TrimLeftSpace(ws + buf) == TrimLeftSpace(buf)
  {
    if ws == [] {
      assert ws + buf == buf;
    } else {
      assert IsSpace(ws[0]);
      assert (ws + buf)[0] == ws[0];
      assert (ws + buf)[1..] == ws[1..] + buf;
      assert AllSpace(ws[1..]) by {
        assert forall i :: 0 <= i < |ws[1..]| ==> ws[1..][i] == ws[i + 1];
      }
      TrimLeftSpaceSkipsSpace(ws[1..], buf);
    }
  }

  /** Leading white space does not change whether a buffer has a prefix. */
  lemma LeadingSpaceIrrelevant(ws: seq<char>, buf: seq<char>, prefix: seq<char>)
    requires AllSpace(ws)
    ensures HasPrefix(ws + buf, prefix) == HasPrefix(buf, prefix)
  {
    TrimLeftSpaceSkipsSpace(ws, buf);
  }

  /** A blank buffer has no prefix that starts with a non-white-space character. */
  lemma BlankHasNoPrefix(buf: seq<char>, prefix: seq<char>)
    requires AllSpace(buf)
    requires prefix != [] && !IsSpace(prefix[0])
    ensures !HasPrefix(buf, prefix)
  {
    TrimLeftSpaceSkipsSpace(buf, []);
    assert buf + [] == buf;
  }

  /** A JSON object after any leading white space passes through toJSON unchanged. */
  lemma JsonPassesThrough(ws: seq<char>, body: seq<char>, yamlToJSON: Result<seq<char>, string>)
    requires AllSpace(ws)
    ensures ToJSON(ws + ['{'] + body, yamlToJSON) == Success(ws + ['{'] + body)
  {
    var data := ws + ['{'] + body;
    assert data == ws + (['{'] + body);
    LeadingSpaceIrrelevant(ws, ['{'] + body, JsonPrefix);
    assert HasPrefix(['{'] + body, JsonPrefix) by {
      assert TrimLeftSpace(['{'] + body) == ['{'] + body;
    }
  }
}
