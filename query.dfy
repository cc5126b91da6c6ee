/** Endpoint strings: a path with an optional query string, as the client
    writes them (`path?k=v&k=v`) and as a server reads them back. */
module QueryString {
  import opened Wrappers

  /** strings.Join: the parts with `sep` between consecutive ones. */
  function Join(parts: seq<string>, sep: string): string {
    if parts == [] then ""
    else if |parts| == 1 then parts[0]
    else parts[0] + sep + Join(parts[1..], sep)
  }

  /** Splits `s` at every occurrence of `sep` (strings.Split with a
      one-character separator): always at least one field. */
  function Split(s: string, sep: char): (r: seq<string>)
    ensures |r| >= 1
  {
    if s == [] then [""]
    else
      var rest := Split(s[1..], sep);
      if s[0] == sep then [""] + rest
      else [[s[0]] + rest[0]] + rest[1..]
  }

  /** The path with the query parameters appended, the `?` written only
      when there is at least one parameter. */
  function WithQuery(path: string, params: seq<string>): string {
    if params == [] then path else path + "?" + Join(params, "&")
  }

  /** A server's reading of an endpoint: the path up to the first `?`, and
      the `&`-separated fields after it (none when there is no `?`). */
  function ParseEndpoint(e: string): (string, seq<string>) {
    var (path, query) := SplitAtQuestionMark(e);
    (path, if query.Some? then Split(query.value, '&') else [])
  }

  function SplitAtQuestionMark(s: string): (string, Option<string>) {
    if s == [] then ("", None)
    else if s[0] == '?' then ("", Some(s[1..]))
    else
      var (p, q) := SplitAtQuestionMark(s[1..]);
      ([s[0]] + p, q)
  }

  lemma {:induction false} SplitAtQuestionMarkOf(path: string, rest: Option<string>)
    requires '?' !in path
    ensures SplitAtQuestionMark(path + (if rest.Some? then "?" + rest.value else "")) == (path, rest)
  {
    var s := path + (if rest.Some? then "?" + rest.value else "");
    if path != [] {
      assert s[1..] == path[1..] + (if rest.Some? then "?" + rest.value else "");
      SplitAtQuestionMarkOf(path[1..], rest);
      assert [path[0]] + path[1..] == path;
    } else if rest.Some? {
      assert s[1..] == rest.value;
    }
  }

  /** A prefix free of the separator stays glued to the first field. */
  lemma {:induction false} SplitPrefix(a: string, t: string, sep: char)
    requires sep !in a
    ensures Split(a + t, sep) == [a + Split(t, sep)[0]] + Split(t, sep)[1..]
  {
    if a == [] {
      assert a + t == t;
      assert a + Split(t, sep)[0] == Split(t, sep)[0];
    } else {
      assert (a + t)[0] == a[0] && (a + t)[1..] == a[1..] + t;
      SplitPrefix(a[1..], t, sep);
      assert [a[0]] + (a[1..] + Split(t, sep)[0]) == a + Split(t, sep)[0];
    }
  }

  /** Splitting a joined list gives the list back when no part contains the separator. */
  lemma {:induction false} SplitJoin(parts: seq<string>, sep: char)
    requires parts != []
    requires forall i :: 0 <= i < |parts| ==> sep !in parts[i]
    ensures Split(Join(parts, [sep]), sep) == parts
  {
    if |parts| == 1 {
      SplitPrefix(parts[0], "", sep);
      assert parts[0] + "" == parts[0];
    } else {
      var tail := Join(parts[1..], [sep]);
      SplitJoin(parts[1..], sep);
      assert Join(parts, [sep]) == parts[0] + ([sep] + tail);
      SplitPrefix(parts[0], [sep] + tail, sep);
      assert ([sep] + tail)[1..] == tail;
      assert Split([sep] + tail, sep) == [""] + parts[1..];
      assert parts[0] + "" == parts[0];
      assert [parts[0]] + parts[1..] == parts;
    }
  }

  /** Round trip: reading back an endpoint built by WithQuery gives its path
      and its parameters, provided the path has no `?` and no parameter
      contains `&` (nothing in the client escapes them). */
  lemma ParseWithQuery(path: string, params: seq<string>)
    requires '?' !in path
    requires forall i :: 0 <= i < |params| ==> '&' !in params[i]
    ensures ParseEndpoint(WithQuery(path, params)) == (path, params)
  {
    if params == [] {
      SplitAtQuestionMarkOf(path, None);
      assert path + "" == path;
    } else {
      SplitAtQuestionMarkOf(path, Some(Join(params, "&")));
      assert WithQuery(path, params) == path + ("?" + Join(params, "&"));
      SplitJoin(params, '&');
    }
  }

  /** An endpoint built by WithQuery contains a `?` exactly when there are
      parameters. (With an unescaped `?` inside a parameter it contains more
      than one.) */
  lemma QuestionMarkIffParams(path: string, params: seq<string>)
    requires '?' !in path
    ensures '?' in WithQuery(path, params) <==> params != []
  {
    if params != [] {
      assert WithQuery(path, params)[|path|] == '?';
    }
  }
}
