/**
 * The shape of the relative URLs the component requests and navigates to:
 * a path, a `?`, and `key=value` pairs joined by `&`, with values inserted raw.
 * `Parse` is a plain reader of that shape (first `?`, then `&`, then the first
 * `=` of each pair); it performs no percent-decoding, as the builder performs
 * no encoding.
 */
module Url {
  import opened Wrappers

  datatype Param = Param(key: string, value: string)

  /** A path with its ordered query parameters. */
  datatype Target = Target(path: string, params: seq<Param>)

  /** The index of the first `c` in `s`, if any. */
  function IndexOf(s: string, c: char): (r: Option<nat>)
    ensures r.Some? ==> r.value < |s| && s[r.value] == c && c !in s[..r.value]
    ensures r.None? ==> c !in s
  {
    if s == [] then None
    else if s[0] == c then Some(0)
    else
      match IndexOf(s[1..], c)
      case None => None
      case Some(i) => assert s[..i + 1] == [s[0]] + s[1..][..i]; Some(i + 1)
  }

  lemma IndexOfSeparator(a: string, c: char, b: string)
    requires c !in a
    ensures IndexOf(a + [c] + b, c) == Some(|a|)
  {
    var s := a + [c] + b;
    assert s[|a|] == c;
  }

  function Join(parts: seq<string>, sep: char): string
  {
    if |parts| == 0 then ""
    else if |parts| == 1 then parts[0]
    else parts[0] + [sep] + Join(parts[1..], sep)
  }

  /** Cuts `s` at every `sep`; always at least one piece. */
  function Split(s: string, sep: char): (parts: seq<string>)
    ensures |parts| > 0
    decreases |s|
  {
    match IndexOf(s, sep)
    case None => [s]
    case Some(i) => [s[..i]] + Split(s[i + 1..], sep)
  }

  /** Splitting undoes joining when no piece contains the separator. */
  lemma {:induction false} SplitJoin(parts: seq<string>, sep: char)
    requires |parts| > 0
    requires forall i :: 0 <= i < |parts| ==> sep !in parts[i]
    ensures Split(Join(parts, sep), sep) == parts
  {
    if |parts| > 1 {
      var rest := Join(parts[1..], sep);
      var s := parts[0] + [sep] + rest;
      IndexOfSeparator(parts[0], sep, rest);
      assert s[..|parts[0]|] == parts[0];
      assert s[|parts[0]| + 1..] == rest;
      SplitJoin(parts[1..], sep);
      assert parts == [parts[0]] + parts[1..];
    }
  }

  lemma {:induction false} JoinSnoc(parts: seq<string>, x: string, sep: char)
    requires |parts| > 0
    ensures Join(parts + [x], sep) == Join(parts, sep) + [sep] + x
  {
    if |parts| > 1 {
      assert (parts + [x])[1..] == parts[1..] + [x];
      JoinSnoc(parts[1..], x, sep);
    }
  }

  function RenderParam(p: Param): string
  {
    p.key + "=" + p.value
  }

  /** Reads `key=value`, cutting at the first `=`; a piece without `=` is a key with an empty value. */
  function ParseParam(s: string): Param
  {
    match IndexOf(s, '=')
    case None => Param(s, "")
    case Some(i) => Param(s[..i], s[i + 1..])
  }

  lemma ParseRenderParam(p: Param)
    requires '=' !in p.key
    ensures ParseParam(RenderParam(p)) == p
  {
    var s := RenderParam(p);
    assert s == p.key + ['='] + p.value;
    IndexOfSeparator(p.key, '=', p.value);
    assert s[..|p.key|] == p.key;
    assert s[|p.key| + 1..] == p.value;
  }

  function RenderParams(ps: seq<Param>): (r: seq<string>)
    ensures |r| == |ps|
    ensures forall i :: 0 <= i < |ps| ==> r[i] == RenderParam(ps[i])
  {
    if ps == [] then [] else [RenderParam(ps[0])] + RenderParams(ps[1..])
  }

  function ParseParams(pieces: seq<string>): (r: seq<Param>)
    ensures |r| == |pieces|
    ensures forall i :: 0 <= i < |pieces| ==> r[i] == ParseParam(pieces[i])
  {
    if pieces == [] then [] else [ParseParam(pieces[0])] + ParseParams(pieces[1..])
  }

  /** `path?k1=v1&k2=v2...`, every key and value inserted as it is. */
  function Render(t: Target): string
  {
    t.path + "?" + Join(RenderParams(t.params), '&')
  }

  /** Appending a parameter appends `&key=value` to the rendered text. */
  lemma RenderSnoc(path: string, ps: seq<Param>, p: Param)
    requires |ps| > 0
    ensures Render(Target(path, ps + [p])) == Render(Target(path, ps)) + "&" + RenderParam(p)
  {
    assert RenderParams(ps + [p]) == RenderParams(ps) + [RenderParam(p)];
    JoinSnoc(RenderParams(ps), RenderParam(p), '&');
  }

  /** `path?key=value`, with the separators fused into the text before the value. */
  lemma RenderSingle(path: string, key: string, value: string)
    ensures Render(Target(path, [Param(key, value)])) == path + ("?" + key + "=") + value
  {
  }

  /** Appending a parameter appends `&key=`, then the value, to the rendered text. */
  lemma RenderAppend(path: string, ps: seq<Param>, key: string, value: string)
    requires |ps| > 0
    ensures Render(Target(path, ps + [Param(key, value)])) == Render(Target(path, ps)) + ("&" + key + "=") + value
  {
    RenderSnoc(path, ps, Param(key, value));
  }

  function Parse(s: string): Target
  {
    match IndexOf(s, '?')
    case None => Target(s, [])
    case Some(i) => Target(s[..i], ParseParams(Split(s[i + 1..], '&')))
  }

  /** A target that `Parse` reads back exactly: the path holds no `?`, keys hold no `=`, nothing in the query holds `&`. */
  predicate Readable(t: Target)
  {
    && '?' !in t.path
    && |t.params| > 0
    && forall i :: 0 <= i < |t.params| ==>
         '=' !in t.params[i].key && '&' !in t.params[i].key && '&' !in t.params[i].value
  }

  lemma ReadableSingle(path: string, key: string, value: string)
    requires '?' !in path && '=' !in key && '&' !in key && '&' !in value
    ensures Readable(Target(path, [Param(key, value)]))
  {
  }

  lemma ReadableAppend(path: string, ps: seq<Param>, key: string, value: string)
    requires Readable(Target(path, ps))
    requires '=' !in key && '&' !in key && '&' !in value
    ensures Readable(Target(path, ps + [Param(key, value)]))
  {
  }

  lemma {:induction false} RenderedPiecesAvoidAmpersand(ps: seq<Param>)
    requires forall i :: 0 <= i < |ps| ==> '&' !in ps[i].key && '&' !in ps[i].value
    ensures forall i :: 0 <= i < |ps| ==> '&' !in RenderParams(ps)[i]
  {
    forall i | 0 <= i < |ps| ensures '&' !in RenderParams(ps)[i] {
      var r := RenderParams(ps)[i];
      assert r == ps[i].key + "=" + ps[i].value;
    }
  }

  /** Parsing a rendered, readable target gives back its path and every parameter, in order. */
  lemma {:induction false} ParseRender(t: Target)
    requires Readable(t)
    ensures Parse(Render(t)) == t
  {
    var q := Join(RenderParams(t.params), '&');
    IndexOfSeparator(t.path, '?', q);
    var s := Render(t);
    assert s == t.path + ['?'] + q;
    assert s[..|t.path|] == t.path;
    assert s[|t.path| + 1..] == q;
    RenderedPiecesAvoidAmpersand(t.params);
    SplitJoin(RenderParams(t.params), '&');
    var ps := ParseParams(RenderParams(t.params));
    forall i | 0 <= i < |t.params| ensures ps[i] == t.params[i] {
      ParseRenderParam(t.params[i]);
    }
  }

  /** The value of the first parameter named `key`. */
  function Lookup(ps: seq<Param>, key: string): Option<string>
  {
    if ps == [] then None
    else if ps[0].key == key then Some(ps[0].value)
    else Lookup(ps[1..], key)
  }

  /** Lookup finds the value of the first parameter with the key, and nothing when no parameter has it. */
  lemma {:induction false} LookupSpec(ps: seq<Param>, key: string)
    ensures Lookup(ps, key).None? <==> forall i :: 0 <= i < |ps| ==> ps[i].key != key
    ensures Lookup(ps, key).Some? ==>
      exists i :: 0 <= i < |ps| && ps[i].key == key && ps[i].value == Lookup(ps, key).value
                  && forall j :: 0 <= j < i ==> ps[j].key != key
  {
    if ps != [] && ps[0].key != key {
      LookupSpec(ps[1..], key);
      assert forall i :: 1 <= i < |ps| ==> ps[i] == ps[1..][i - 1];
      if Lookup(ps[1..], key).Some? {
        var i :| 0 <= i < |ps[1..]| && ps[1..][i].key == key && ps[1..][i].value == Lookup(ps, key).value
                  && forall j :: 0 <= j < i ==> ps[1..][j].key != key;
        assert ps[i + 1].key == key;
      }
    }
  }

  /** Appending a parameter never changes what an existing key looks up to. */
  lemma {:induction false} LookupAppend(ps: seq<Param>, extra: seq<Param>, key: string)
    ensures Lookup(ps + extra, key) == if Lookup(ps, key).Some? then Lookup(ps, key) else Lookup(extra, key)
  {
    if ps == [] {
      assert ps + extra == extra;
    } else {
      assert (ps + extra)[1..] == ps[1..] + extra;
      LookupAppend(ps[1..], extra, key);
    }
  }

  function Keys(ps: seq<Param>): (ks: seq<string>)
    ensures |ks| == |ps|
    ensures forall i :: 0 <= i < |ps| ==> ks[i] == ps[i].key
  {
    if ps == [] then [] else [ps[0].key] + Keys(ps[1..])
  }
}
