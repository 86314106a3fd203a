/**
 * User profile objects and their JSON text.
 *
 * A profile is a JavaScript object whose property values are strings,
 * kept as (name, value) pairs in property insertion order: the order in
 * which JavaScript enumerates, spreads and serialises string keys.
 * `Stringify` gives the compact JSON text that `JSON.stringify` writes
 * for such an object, and `Parse` reads that text back as `JSON.parse`
 * does.
 */
module Profiles {
  import opened Common

  type Profile = seq<(string, string)>

  function Keys(p: Profile): (ks: seq<string>)
    ensures |ks| == |p|
    ensures forall i :: 0 <= i < |p| ==> ks[i] == p[i].0
  {
    if |p| == 0 then [] else [p[0].0] + Keys(p[1..])
  }

  /** A JavaScript object never holds the same property twice. */
  ghost predicate DistinctKeys(p: Profile)
  {
    forall i, j :: 0 <= i < j < |p| ==> p[i].0 != p[j].0
  }

  /** `o[k]`: `None` stands for `undefined`. */
  function Get(p: Profile, k: string): (r: Option<string>)
    ensures r.None? <==> k !in Keys(p)
    ensures r.Some? ==> exists i :: 0 <= i < |p| && p[i] == (k, r.value)
  {
    if |p| == 0 then None
    else if p[0].0 == k then Some(p[0].1)
    else
      var r := Get(p[1..], k);
      assert Keys(p) == [p[0].0] + Keys(p[1..]);
      if r.Some? then
        var i :| 0 <= i < |p[1..]| && p[1..][i] == (k, r.value);
        assert p[i + 1] == (k, r.value);
        r
      else r
  }

  /** `o[k]` is truthy: present and not the empty string. */
  predicate Has(p: Profile, k: string)
  {
    Get(p, k).Some? && Get(p, k).value != ""
  }

  /** `o[k] = v`: an existing property keeps its place, a new one goes last. */
  function Put(p: Profile, k: string, v: string): (r: Profile)
    ensures Keys(r) == if k in Keys(p) then Keys(p) else Keys(p) + [k]
  {
    if |p| == 0 then [(k, v)]
    else if p[0].0 == k then [(k, v)] + p[1..]
    else
      var r := [p[0]] + Put(p[1..], k, v);
      assert r[1..] == Put(p[1..], k, v);
      assert Keys(p) == [p[0].0] + Keys(p[1..]);
      assert Keys(r) == [p[0].0] + Keys(r[1..]);
      r
  }

  /** After `o[k] = v`, `o[k]` is `v` and every other property reads as before. */
  lemma {:induction false} GetPut(p: Profile, k: string, v: string, k': string)
    ensures Get(Put(p, k, v), k') == if k' == k then Some(v) else Get(p, k')
  {
    if |p| > 0 && p[0].0 != k {
      GetPut(p[1..], k, v, k');
      assert Put(p, k, v)[1..] == Put(p[1..], k, v);
    }
  }

  /** `delete o[k]`: every other property keeps its value and order. */
  function Remove(p: Profile, k: string): (r: Profile)
    ensures k !in Keys(r)
    ensures forall x :: x in Keys(r) ==> x in Keys(p)
    ensures |r| <= |p|
  {
    if |p| == 0 then []
    else if p[0].0 == k then Remove(p[1..], k)
    else
      var r := [p[0]] + Remove(p[1..], k);
      assert r[1..] == Remove(p[1..], k);
      assert Keys(r) == [p[0].0] + Keys(r[1..]);
      assert Keys(p) == [p[0].0] + Keys(p[1..]);
      r
  }

  /** After `delete o[k]`, `o[k]` is undefined and every other property
      reads as before. */
  lemma {:induction false} GetRemove(p: Profile, k: string, k': string)
    ensures Get(Remove(p, k), k') == if k' == k then None else Get(p, k')
  {
    if |p| > 0 {
      GetRemove(p[1..], k, k');
      if p[0].0 != k {
        assert Remove(p, k)[1..] == Remove(p[1..], k);
      }
    }
  }

  /** Setting a property never duplicates one. */
  lemma PutKeepsDistinct(p: Profile, k: string, v: string)
    requires DistinctKeys(p)
    ensures DistinctKeys(Put(p, k, v))
  {
    var r := Put(p, k, v);
    forall i, j | 0 <= i < j < |r|
      ensures r[i].0 != r[j].0
    {
      assert Keys(r)[i] == r[i].0 && Keys(r)[j] == r[j].0;
      if j < |p| {
        assert Keys(p)[i] == p[i].0 && Keys(p)[j] == p[j].0;
      } else {
        assert Keys(r)[j] == k && Keys(r)[i] == Keys(p)[i];
      }
    }
  }

  /** Deleting a property never duplicates one. */
  lemma {:induction false} RemoveKeepsDistinct(p: Profile, k: string)
    requires DistinctKeys(p)
    ensures DistinctKeys(Remove(p, k))
  {
    if |p| > 0 {
      RemoveKeepsDistinct(p[1..], k);
      if p[0].0 != k {
        var r := Remove(p, k);
        var rest := Remove(p[1..], k);
        assert r == [p[0]] + rest;
        assert p[0].0 !in Keys(p[1..]) by {
          forall j | 0 <= j < |p[1..]|
            ensures Keys(p[1..])[j] != p[0].0
          {
            assert p[1..][j] == p[j + 1];
          }
        }
        assert p[0].0 !in Keys(rest);
        forall i, j | 0 <= i < j < |r|
          ensures r[i].0 != r[j].0
        {
          if i == 0 {
            assert r[j] == rest[j - 1] && Keys(rest)[j - 1] == rest[j - 1].0;
          } else {
            assert r[i] == rest[i - 1] && r[j] == rest[j - 1];
          }
        }
      }
    }
  }

  /** Setting a property an object does not have appends it. */
  lemma {:induction false} PutFresh(p: Profile, k: string, v: string)
    requires k !in Keys(p)
    ensures Put(p, k, v) == p + [(k, v)]
  {
    if |p| > 0 {
      assert Keys(p) == [p[0].0] + Keys(p[1..]);
      PutFresh(p[1..], k, v);
      assert [p[0]] + (p[1..] + [(k, v)]) == p + [(k, v)];
    }
  }

  // ---- JSON text -------------------------------------------------------

  /** The lower-case hexadecimal digit for `n`. */
  function HexDigit(n: int): (c: char)
    requires 0 <= n < 16
    ensures IsHex(c) && HexValue(c) == n
  {
    if n < 10 then ('0' as int + n) as char else ('a' as int + n - 10) as char
  }

  predicate IsHex(c: char)
  {
    '0' <= c <= '9' || 'a' <= c <= 'f' || 'A' <= c <= 'F'
  }

  function HexValue(c: char): (n: int)
    requires IsHex(c)
    ensures 0 <= n < 16
  {
    if '0' <= c <= '9' then c as int - '0' as int
    else if 'a' <= c <= 'f' then c as int - 'a' as int + 10
    else c as int - 'A' as int + 10
  }

  /** The value of four hexadecimal digits. */
  function HexQuad(a: char, b: char, c: char, d: char): (v: int)
    requires IsHex(a) && IsHex(b) && IsHex(c) && IsHex(d)
    ensures 0 <= v < 0x10000
  {
    HexValue(a) * 0x1000 + HexValue(b) * 0x100 + HexValue(c) * 0x10 + HexValue(d)
  }

  /** `JSON.stringify` inside a string literal: the quote and the backslash
      are preceded by a backslash, the five control characters with a
      short form use it, every other character below U+0020 is written
      `\u00xx` with lower-case digits, and everything else is kept. */
  function EscapeChar(c: char): (r: string)
    ensures 1 <= |r|
    ensures r[0] == '\\' || (r == [c] && c != '"' && ' ' <= c)
  {
    if c == '"' || c == '\\' then ['\\', c]
    else if c == '\U{8}' then "\\b"
    else if c == '\U{C}' then "\\f"
    else if c == '\n' then "\\n"
    else if c == '\r' then "\\r"
    else if c == '\t' then "\\t"
    else if c < ' ' then ['\\', 'u', '0', '0', HexDigit(c as int / 16), HexDigit(c as int % 16)]
    else [c]
  }

  function Escape(s: string): string
  {
    if |s| == 0 then "" else EscapeChar(s[0]) + Escape(s[1..])
  }

  function Quote(s: string): string
  {
    ['"'] + Escape(s) + ['"']
  }

  function Member(f: (string, string)): string
  {
    Quote(f.0) + [':'] + Quote(f.1)
  }

  /** The members after the first, each preceded by a comma. */
  function MoreMembers(p: Profile): string
  {
    if |p| == 0 then "" else [','] + Member(p[0]) + MoreMembers(p[1..])
  }

  /** `JSON.stringify(o)` for a profile object. */
  function Stringify(p: Profile): string
  {
    if |p| == 0 then "{}" else ['{'] + Member(p[0]) + MoreMembers(p[1..]) + ['}']
  }

  /** The character an escape sequence stands for, given the text after
      its backslash, with the number of characters the sequence takes
      there. A `\u` escape of half a surrogate pair is not read. */
  function Unescape(t: string): (r: Option<(char, nat)>)
    ensures r.Some? ==> 1 <= r.value.1 <= |t|
  {
    if |t| == 0 then None
    else if t[0] == '"' || t[0] == '\\' || t[0] == '/' then Some((t[0], 1))
    else if t[0] == 'b' then Some(('\U{8}', 1))
    else if t[0] == 'f' then Some(('\U{C}', 1))
    else if t[0] == 'n' then Some(('\n', 1))
    else if t[0] == 'r' then Some(('\r', 1))
    else if t[0] == 't' then Some(('\t', 1))
    else if t[0] == 'u' && |t| >= 5 && IsHex(t[1]) && IsHex(t[2]) && IsHex(t[3]) && IsHex(t[4]) then
      var v := HexQuad(t[1], t[2], t[3], t[4]);
      if 0xD800 <= v < 0xE000 then None else Some((v as char, 5))
    else None
  }

  /** The characters of a string literal after its opening quote, up to
      the closing quote, with the text that follows it. A raw character
      below U+0020 makes `JSON.parse` throw. */
  function ReadChars(s: string): (r: Option<(string, string)>)
    ensures r.Some? ==> |r.value.1| < |s|
  {
    if |s| == 0 then None
    else if s[0] == '"' then Some(("", s[1..]))
    else if s[0] < ' ' then None
    else if s[0] == '\\' then
      match Unescape(s[1..])
      case None => None
      case Some((c, n)) =>
        match ReadChars(s[1 + n..])
        case None => None
        case Some((x, rest)) => Some(([c] + x, rest))
    else
      match ReadChars(s[1..])
      case None => None
      case Some((x, rest)) => Some(([s[0]] + x, rest))
  }

  /** A string literal at the front of `s`, with the text that follows it. */
  function ReadString(s: string): (r: Option<(string, string)>)
    ensures r.Some? ==> |r.value.1| < |s|
  {
    if |s| > 0 && s[0] == '"' then ReadChars(s[1..]) else None
  }

  /** The members of an object after its `{` (or after a `,`), set on
      `acc` in order: a repeated name keeps its first place and takes its
      last value, as `JSON.parse` does. */
  function ParseMembers(s: string, acc: Profile): Option<Profile>
    decreases |s|
  {
    match ReadString(s)
    case None => None
    case Some((k, r1)) =>
      if |r1| == 0 || r1[0] != ':' then None
      else
        match ReadString(r1[1..])
        case None => None
        case Some((v, r2)) =>
          var next := Put(acc, k, v);
          if r2 == "}" then Some(next)
          else if |r2| > 0 && r2[0] == ',' then ParseMembers(r2[1..], next)
          else None
  }

  /** Reads back the compact text `Stringify` writes, as `JSON.parse`
      does; `None` for any other text, including valid JSON with
      whitespace or with values that are not strings. */
  function Parse(s: string): Option<Profile>
  {
    if s == "{}" then Some([])
    else if |s| > 0 && s[0] == '{' then ParseMembers(s[1..], [])
    else None
  }

  /** What `ParseMembers` builds never holds a property twice. */
  lemma {:induction false} ParseMembersDistinct(s: string, acc: Profile)
    requires DistinctKeys(acc)
    ensures ParseMembers(s, acc).Some? ==> DistinctKeys(ParseMembers(s, acc).value)
    decreases |s|
  {
    match ReadString(s)
    case None =>
    case Some((k, r1)) =>
      if |r1| > 0 && r1[0] == ':' {
        match ReadString(r1[1..])
        case None =>
        case Some((v, r2)) =>
          PutKeepsDistinct(acc, k, v);
          if r2 != "}" && |r2| > 0 && r2[0] == ',' {
            ParseMembersDistinct(r2[1..], Put(acc, k, v));
          }
      }
  }

  /** `JSON.parse` never yields an object holding a property twice. */
  lemma ParseDistinct(s: string)
    ensures Parse(s).Some? ==> DistinctKeys(Parse(s).value)
  {
    if s != "{}" && |s| > 0 && s[0] == '{' {
      ParseMembersDistinct(s[1..], []);
    }
  }

  /** Reading an escape sequence `EscapeChar` wrote gives the character
      back and takes the whole sequence. */
  lemma UnescapeEscapeChar(c: char, rest: string)
    requires EscapeChar(c)[0] == '\\'
    ensures Unescape(EscapeChar(c)[1..] + rest) == Some((c, |EscapeChar(c)| - 1))
  {
    var t := EscapeChar(c)[1..] + rest;
    if c < ' ' && c != '\U{8}' && c != '\U{C}' && c != '\n' && c != '\r' && c != '\t' {
      var hi, lo := HexDigit(c as int / 16), HexDigit(c as int % 16);
      assert t[..5] == ['u', '0', '0', hi, lo];
      assert HexValue('0') == 0;
    }
  }

  /** Reading one escaped character, followed by `tail`. */
  lemma ReadEscapedChar(c: char, tail: string)
    ensures ReadChars(EscapeChar(c) + tail) ==
      match ReadChars(tail)
      case None => None
      case Some((x, rest)) => Some(([c] + x, rest))
  {
    var e := EscapeChar(c);
    var s := e + tail;
    if e[0] == '\\' {
      assert s[0] == '\\' && s[1..] == e[1..] + tail;
      UnescapeEscapeChar(c, tail);
      assert s[1 + (|e| - 1)..] == tail;
    } else {
      assert s[0] == c && s[1..] == tail;
    }
  }

  lemma {:induction false} ReadEscaped(x: string, rest: string)
    ensures ReadChars(Escape(x) + ['"'] + rest) == Some((x, rest))
  {
    if |x| == 0 {
      assert Escape(x) + ['"'] + rest == ['"'] + rest;
    } else {
      var e, r := EscapeChar(x[0]), Escape(x[1..]);
      var tail := r + ['"'] + rest;
      ReadEscaped(x[1..], rest);
      assert ReadChars(tail) == Some((x[1..], rest));
      assert Escape(x) + ['"'] + rest == e + tail by {
        assert Escape(x) == e + r;
      }
      ReadEscapedChar(x[0], tail);
      assert [x[0]] + x[1..] == x;
    }
  }

  lemma ReadQuoted(x: string, rest: string)
    ensures ReadString(Quote(x) + rest) == Some((x, rest))
  {
    var s := Quote(x) + rest;
    assert s[1..] == Escape(x) + ['"'] + rest;
    ReadEscaped(x, rest);
  }

  /** Reading one member `"k":"v"` sets `k` on the object being built. */
  lemma ParseMembersStep(k: string, v: string, tail: string, acc: Profile)
    ensures ParseMembers(Member((k, v)) + tail, acc)
      == if tail == "}" then Some(Put(acc, k, v))
         else if |tail| > 0 && tail[0] == ',' then ParseMembers(tail[1..], Put(acc, k, v))
         else None
  {
    var after := [':'] + Quote(v) + tail;
    assert Member((k, v)) + tail == Quote(k) + after;
    ReadQuoted(k, after);
    assert after[1..] == Quote(v) + tail;
    ReadQuoted(v, tail);
  }

  /** Reading back the members `Stringify` wrote rebuilds the object. */
  lemma {:induction false} ParseMembersRoundTrip(p: Profile, acc: Profile)
    requires |p| > 0
    requires DistinctKeys(acc + p)
    ensures ParseMembers(Member(p[0]) + MoreMembers(p[1..]) + ['}'], acc) == Some(acc + p)
  {
    var k, v := p[0].0, p[0].1;
    var q := p[1..];
    var tail := MoreMembers(q) + ['}'];
    Associative(Member(p[0]), MoreMembers(q), ['}']);
    ParseMembersStep(k, v, tail, acc);
    var acc' := acc + [(k, v)];
    AppendFirst(acc, p);
    FreshKey(acc, p);
    PutFresh(acc, k, v);
    if |q| > 0 {
      var m, r := Member(q[0]), MoreMembers(q[1..]);
      assert MoreMembers(q) == [','] + m + r;
      DropComma(m, r);
      ParseMembersRoundTrip(q, acc');
    } else {
      assert tail == "}";
      assert p == [(k, v)];
    }
  }

  lemma Associative(a: string, b: string, c: string)
    ensures a + b + c == a + (b + c)
  {
  }

  lemma AppendFirst(acc: Profile, p: Profile)
    requires |p| > 0
    ensures (acc + [p[0]]) + p[1..] == acc + p
  {
  }

  lemma DropComma(m: string, r: string)
    ensures ([','] + m + r + ['}'])[0] == ','
    ensures ([','] + m + r + ['}'])[1..] == m + r + ['}']
  {
  }

  lemma FreshKey(acc: Profile, p: Profile)
    requires |p| > 0 && DistinctKeys(acc + p)
    ensures p[0].0 !in Keys(acc)
  {
    forall i | 0 <= i < |acc|
      ensures Keys(acc)[i] != p[0].0
    {
      assert (acc + p)[i] == acc[i] && (acc + p)[|acc|] == p[0];
    }
  }

  /** A non-empty object is written as a brace, its members and a brace. */
  lemma StringifyShape(p: Profile)
    requires |p| > 0
    ensures var s := Stringify(p);
      s != "{}" && |s| > 0 && s[0] == '{' && s[1..] == Member(p[0]) + MoreMembers(p[1..]) + ['}']
  {
    var m, rest := Member(p[0]), MoreMembers(p[1..]);
    assert |m| >= 2 by {
      assert m == Quote(p[0].0) + [':'] + Quote(p[0].1);
    }
    assert Stringify(p) == ['{'] + (m + rest + ['}']);
    assert |Stringify(p)| >= 4;
  }

  /** `JSON.parse(JSON.stringify(o))` gives `o` back. */
  lemma ParseStringify(p: Profile)
    requires DistinctKeys(p)
    ensures Parse(Stringify(p)) == Some(p)
  {
    if |p| > 0 {
      StringifyShape(p);
      assert [] + p == p;
      ParseMembersRoundTrip(p, []);
    }
  }
}
