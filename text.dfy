/** String helpers with Python's semantics: `str.split()` with no argument,
    `str.split(':')[0]`, the `in` operator on two strings, and the
    basename-without-extension that names a node document. */
module Text {

  /** The characters Python 2's `str.split()` treats as whitespace. */
  predicate IsSpace(c: char) {
    c == ' ' || c == '\t' || c == '\n' || c == '\r' || c == '\U{000B}' || c == '\U{000C}'
  }

  /** A non-empty string without whitespace: what `str.split()` produces. */
  predicate Word(t: string) {
    t != [] && forall i :: 0 <= i < |t| ==> !IsSpace(t[i])
  }

  /** The longest prefix of `s` that holds no whitespace. */
  function Token(s: string): (t: string)
    ensures |t| <= |s| && t == s[..|t|]
    ensures forall i :: 0 <= i < |t| ==> !IsSpace(t[i])
    ensures |t| < |s| ==> IsSpace(s[|t|])
  {
    if s == [] || IsSpace(s[0]) then [] else [s[0]] + Token(s[1..])
  }

  /** `s.split()`: the maximal runs of non-whitespace characters, in order. */
  function SplitWhitespace(s: string): (ts: seq<string>)
    ensures forall i :: 0 <= i < |ts| ==> Word(ts[i])
    decreases |s|
  {
    if s == [] then []
    else if IsSpace(s[0]) then SplitWhitespace(s[1..])
    else
      var t := Token(s);
      [t] + SplitWhitespace(s[|t|..])
  }

  /** `" ".join(ts)` */
  function JoinWords(ts: seq<string>): string {
    if ts == [] then ""
    else if |ts| == 1 then ts[0]
    else ts[0] + " " + JoinWords(ts[1..])
  }

  lemma {:induction false} TokenOfWord(t: string, rest: string)
    requires Word(t)
    requires rest == [] || IsSpace(rest[0])
    ensures Token(t + rest) == t
    decreases |t|
  {
    var s := t + rest;
    assert s[0] == t[0];
    if |t| == 1 {
      assert s[1..] == rest;
      assert Token(rest) == [];
    } else {
      assert s[1..] == t[1..] + rest;
      TokenOfWord(t[1..], rest);
      assert [t[0]] + t[1..] == t;
    }
  }

  /** Splitting a space-joined list of words gives back the words. */
  lemma {:induction false} SplitJoin(ts: seq<string>)
    requires forall i :: 0 <= i < |ts| ==> Word(ts[i])
    ensures SplitWhitespace(JoinWords(ts)) == ts
  {
    if ts == [] {
    } else if |ts| == 1 {
      TokenOfWord(ts[0], []);
      assert ts[0] + [] == ts[0];
      assert JoinWords(ts)[|ts[0]|..] == [];
    } else {
      var rest := " " + JoinWords(ts[1..]);
      var s := JoinWords(ts);
      assert s == ts[0] + rest;
      TokenOfWord(ts[0], rest);
      assert s[|ts[0]|..] == rest;
      assert rest[1..] == JoinWords(ts[1..]);
      SplitJoin(ts[1..]);
      assert [ts[0]] + ts[1..] == ts;
    }
  }

  /** `s.split(':')[0]`: everything before the first colon. */
  function BeforeColon(s: string): (r: string)
    ensures |r| <= |s| && r == s[..|r|]
    ensures ':' !in r
    ensures |r| < |s| ==> s[|r|] == ':'
  {
    if s == [] || s[0] == ':' then [] else [s[0]] + BeforeColon(s[1..])
  }

  lemma {:induction false} BeforeColonOfPrefix(host: string, rest: string)
    requires ':' !in host
    requires rest == [] || rest[0] == ':'
    ensures BeforeColon(host + rest) == host
    decreases |host|
  {
    if host != [] {
      var s := host + rest;
      assert s[0] == host[0] && host[0] in host;
      assert s[1..] == host[1..] + rest;
      assert ':' !in host[1..] by {
        forall i | 0 <= i < |host[1..]| ensures host[1..][i] != ':' {
          assert host[1..][i] == host[i + 1] && host[i + 1] in host;
        }
      }
      BeforeColonOfPrefix(host[1..], rest);
      assert [host[0]] + host[1..] == host;
    } else {
      assert host + rest == rest;
    }
  }

  /** A "host:port" entry is cut back to its host; an entry without a colon is kept. */
  lemma BeforeColonOfHostPort(host: string, port: string)
    requires ':' !in host
    ensures BeforeColon(host + ":" + port) == host
    ensures BeforeColon(host) == host
  {
    assert host + ":" + port == host + (":" + port);
    BeforeColonOfPrefix(host, ":" + port);
    assert host + [] == host;
    BeforeColonOfPrefix(host, []);
  }

  /** Python's `needle in hay` for two strings: substring containment, tried at each
      position of `hay` in turn. */
  predicate IsSubstring(needle: string, hay: string)
    decreases |hay|
  {
    IsPrefix(needle, hay) || (hay != [] && IsSubstring(needle, hay[1..]))
  }

  predicate IsPrefix(needle: string, hay: string) {
    |needle| <= |hay| && hay[..|needle|] == needle
  }

  /** The substring test agrees with its definition by positions: `needle` occurs in `hay`
      iff it occurs at some index. */
  lemma {:induction false} SubstringAt(needle: string, hay: string)
    ensures IsSubstring(needle, hay) <==> exists i :: 0 <= i <= |hay| - |needle| && OccursAt(needle, hay, i)
    decreases |hay|
  {
    if hay != [] {
      SubstringAt(needle, hay[1..]);
      if IsPrefix(needle, hay) {
        assert hay[0..|needle|] == hay[..|needle|];
        assert OccursAt(needle, hay, 0);
      }
      if IsSubstring(needle, hay[1..]) {
        var i :| 0 <= i <= |hay[1..]| - |needle| && OccursAt(needle, hay[1..], i);
        assert hay[1..][i..i + |needle|] == hay[i + 1..i + 1 + |needle|];
        assert OccursAt(needle, hay, i + 1);
      }
      if exists i :: 0 <= i <= |hay| - |needle| && OccursAt(needle, hay, i) {
        var i :| 0 <= i <= |hay| - |needle| && OccursAt(needle, hay, i);
        if i > 0 {
          assert hay[1..][i - 1..i - 1 + |needle|] == hay[i..i + |needle|];
          assert OccursAt(needle, hay[1..], i - 1);
        } else {
          assert hay[..|needle|] == hay[0..|needle|];
        }
      }
    } else {
      if exists i :: 0 <= i <= |hay| - |needle| && OccursAt(needle, hay, i) {
        var i :| 0 <= i <= |hay| - |needle| && OccursAt(needle, hay, i);
        assert |needle| == 0 && hay[..0] == needle;
      }
      if needle == [] {
        assert OccursAt(needle, hay, 0);
      }
    }
  }

  predicate OccursAt(needle: string, hay: string, i: int) {
    0 <= i && i + |needle| <= |hay| && hay[i..i + |needle|] == needle
  }

  /** A needle longer than the hay does not occur in it. */
  lemma {:induction false} TooLongForSubstring(needle: string, hay: string)
    requires |needle| > |hay|
    ensures !IsSubstring(needle, hay)
    decreases |hay|
  {
    if hay != [] {
      TooLongForSubstring(needle, hay[1..]);
    }
  }

  lemma SubstringOfPrefix(needle: string, suffix: string)
    ensures IsSubstring(needle, needle + suffix)
  {
    assert (needle + suffix)[..|needle|] == needle;
  }

  /** `p.split('/')[-1]`: what follows the last slash. */
  function Basename(p: string): (b: string)
    ensures '/' !in b
    ensures |b| <= |p| && b == p[|p| - |b|..]
    ensures |b| < |p| ==> p[|p| - |b| - 1] == '/'
  {
    if p == [] || p[|p| - 1] == '/' then [] else Basename(p[..|p| - 1]) + [p[|p| - 1]]
  }

  /** The index of the last '.' of `s`, if any. */
  function LastDot(s: string): (d: Dot)
    ensures d.DotAt? ==> d.index < |s| && s[d.index] == '.' && '.' !in s[d.index + 1..]
    ensures d.NoDot? ==> '.' !in s
  {
    if s == [] then NoDot
    else if s[|s| - 1] == '.' then DotAt(|s| - 1)
    else
      var d := LastDot(s[..|s| - 1]);
      assert s == s[..|s| - 1] + [s[|s| - 1]];
      d
  }

  datatype Dot = NoDot | DotAt(index: nat)

  /** `os.path.splitext(b)[0]` for a name without slashes: the part before the last
      dot, unless every character before that dot is itself a dot. */
  function StripExtension(b: string): (r: string)
    ensures |r| <= |b| && r == b[..|r|]
  {
    match LastDot(b)
    case DotAt(d) => if exists j :: 0 <= j < d && b[j] != '.' then b[..d] else b
    case NoDot => b
  }

  /** The key of a node record read from `path`: its basename without the extension. */
  function NodeKey(path: string): string {
    StripExtension(Basename(path))
  }

  lemma {:induction false} BasenameOf(dir: string, name: string)
    requires dir == [] || dir[|dir| - 1] == '/'
    requires forall i :: 0 <= i < |name| ==> name[i] != '/'
    ensures Basename(dir + name) == name
    decreases |name|
  {
    if name == [] {
      assert dir + name == dir;
    } else {
      var init, c := name[..|name| - 1], name[|name| - 1];
      var p := dir + name;
      assert p == (dir + init) + [c];
      assert p[|p| - 1] == c && c != '/';
      assert p[..|p| - 1] == dir + init;
      assert forall i :: 0 <= i < |init| ==> init[i] == name[i];
      BasenameOf(dir, init);
      assert init + [c] == name;
    }
  }

  lemma LastDotOfJson(name: string)
    ensures LastDot(name + ".json") == DotAt(|name|)
  {
    var b, b1, b2, b3, b4 := name + ".json", name + ".", name + ".j", name + ".js", name + ".jso";
    assert b1[|b1| - 1] == '.';
    assert LastDot(b1) == DotAt(|name|);
    assert b2[..|b2| - 1] == b1 && b2[|b2| - 1] == 'j';
    assert LastDot(b2) == DotAt(|name|);
    assert b3[..|b3| - 1] == b2 && b3[|b3| - 1] == 's';
    assert LastDot(b3) == DotAt(|name|);
    assert b4[..|b4| - 1] == b3 && b4[|b4| - 1] == 'o';
    assert LastDot(b4) == DotAt(|name|);
    assert b[..|b| - 1] == b4 && b[|b| - 1] == 'n';
  }

  lemma StripJson(name: string)
    requires exists j :: 0 <= j < |name| && name[j] != '.'
    ensures StripExtension(name + ".json") == name
  {
    var b := name + ".json";
    LastDotOfJson(name);
    assert b[..|name|] == name;
    var j :| 0 <= j < |name| && name[j] != '.';
    assert b[j] == name[j];
  }

  /** The file `<dir>/<name>.json` yields the key `<name>`. */
  lemma NodeKeyOfFile(dir: string, name: string)
    requires dir == [] || dir[|dir| - 1] == '/'
    requires '/' !in name
    requires exists j :: 0 <= j < |name| && name[j] != '.'
    ensures NodeKey(dir + name + ".json") == name
  {
    var b := name + ".json";
    assert forall i :: 0 <= i < |b| ==> b[i] != '/' by {
      forall i | 0 <= i < |b| ensures b[i] != '/' {
        if i < |name| { assert b[i] == name[i] && name[i] in name; }
      }
    }
    assert dir + name + ".json" == dir + b;
    BasenameOf(dir, b);
    StripJson(name);
  }
}
