/** URL query strings: how a server reads `name=value` parameters joined by `&`.
    This is the reading against which the request URLs of the dashboard are checked;
    percent-decoding is not part of it, since none of the values the dashboard sends
    into a query needs escaping. */
module Query {
  import opened Wrappers

  /** `s` cut at its first `sep`: the text before it and, when there is one, the text after. */
  function BreakAt(s: string, sep: char): (r: (string, Option<string>))
    ensures r.1.None? ==> r.0 == s && sep !in s
    ensures r.1.Some? ==> s == r.0 + [sep] + r.1.value && sep !in r.0
    decreases |s|
  {
    if |s| == 0 then ("", None)
    else if s[0] == sep then ("", Some(s[1..]))
    else
      var rest := BreakAt(s[1..], sep);
      assert s == [s[0]] + s[1..];
      ([s[0]] + rest.0, rest.1)
  }

  /** The pieces of `parts` written one after another with `sep` between neighbours. */
  function Join(parts: seq<string>, sep: char): string {
    if |parts| == 0 then ""
    else if |parts| == 1 then parts[0]
    else parts[0] + [sep] + Join(parts[1..], sep)
  }

  /** `s` cut at every `sep`: the pieces hold no separator and join back into `s`. */
  function Split(s: string, sep: char): (r: seq<string>)
    ensures |r| >= 1
    ensures Join(r, sep) == s
    ensures forall i :: 0 <= i < |r| ==> sep !in r[i]
    decreases |s|
  {
    var (head, tail) := BreakAt(s, sep);
    match tail
    case None => [head]
    case Some(t) =>
      var rest := Split(t, sep);
      assert ([head] + rest)[1..] == rest;
      [head] + rest
  }

  /** The first separator of a text whose first piece holds none is the one after that piece. */
  lemma BreakAtFirst(a: string, b: string, sep: char)
    requires sep !in a
    ensures BreakAt(a + [sep] + b, sep) == (a, Some(b))
  {
    var s := a + [sep] + b;
    assert s[|a|] == sep;
    var r := BreakAt(s, sep);
    assert r.1.Some?;
    var (head, tail) := (r.0, r.1.value);
    assert s[|head|] == sep;
    assert forall k :: 0 <= k < |head| ==> s[k] == head[k];
    assert forall k :: 0 <= k < |a| ==> s[k] == a[k];
    assert |head| == |a|;
    assert head == s[..|a|] == a;
    assert tail == s[|a| + 1..] == b;
  }

  /** Splitting undoes joining, for pieces that hold no separator. */
  lemma {:induction false} SplitJoin(parts: seq<string>, sep: char)
    requires |parts| >= 1
    requires forall i :: 0 <= i < |parts| ==> sep !in parts[i]
    ensures Split(Join(parts, sep), sep) == parts
    decreases |parts|
  {
    if |parts| == 1 {
      assert BreakAt(parts[0], sep).1.None?;
    } else {
      BreakAtFirst(parts[0], Join(parts[1..], sep), sep);
      SplitJoin(parts[1..], sep);
      assert parts == [parts[0]] + parts[1..];
    }
  }

  type Param = (string, string)

  /** One parameter: its name up to the first `=`, its value after it (empty when there is no `=`). */
  function ParseParam(p: string): (r: Param)
    ensures '=' in p ==> p == r.0 + "=" + r.1 && '=' !in r.0
    ensures '=' !in p ==> r == (p, "")
  {
    var (name, value) := BreakAt(p, '=');
    (name, match value case Some(v) => v case None => "")
  }

  function EncodeParam(p: Param): string {
    p.0 + "=" + p.1
  }

  function EncodeParams(ps: seq<Param>): (r: seq<string>)
    ensures |r| == |ps|
    ensures forall i :: 0 <= i < |ps| ==> r[i] == EncodeParam(ps[i])
  {
    if |ps| == 0 then [] else [EncodeParam(ps[0])] + EncodeParams(ps[1..])
  }

  function ParseParams(parts: seq<string>): (r: seq<Param>)
    ensures |r| == |parts|
    ensures forall i :: 0 <= i < |parts| ==> r[i] == ParseParam(parts[i])
  {
    if |parts| == 0 then [] else [ParseParam(parts[0])] + ParseParams(parts[1..])
  }

  /** The parameters of a query string, in the order they are written. */
  function ParseQuery(q: string): (r: seq<Param>)
    ensures |r| >= 1
  {
    ParseParams(Split(q, '&'))
  }

  /** A query string written from parameters. */
  function EncodeQuery(ps: seq<Param>): string {
    Join(EncodeParams(ps), '&')
  }

  /** A parameter that can be written into a query without changing how it is read back. */
  predicate Plain(p: Param) {
    '=' !in p.0 && '&' !in p.0 && '&' !in p.1
  }

  lemma ParamRoundTrip(p: Param)
    requires '=' !in p.0
    ensures ParseParam(EncodeParam(p)) == p
  {
    BreakAtFirst(p.0, p.1, '=');
  }

  /** Reading a written query gives back exactly its parameters, in order and with no others. */
  lemma QueryRoundTrip(ps: seq<Param>)
    requires |ps| >= 1
    requires forall i :: 0 <= i < |ps| ==> Plain(ps[i])
    ensures ParseQuery(EncodeQuery(ps)) == ps
  {
    var parts := EncodeParams(ps);
    forall i | 0 <= i < |parts| ensures '&' !in parts[i] {
      assert parts[i] == ps[i].0 + "=" + ps[i].1;
    }
    SplitJoin(parts, '&');
    forall i | 0 <= i < |ps| ensures ParseParam(parts[i]) == ps[i] {
      ParamRoundTrip(ps[i]);
    }
  }
}
