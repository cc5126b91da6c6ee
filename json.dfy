/** JSON values as they are placed in the `params` field of a JSON-RPC request,
    and the readings a server makes of the two shapes this client sends:
    a list of strings (`[]string`) and a list of lists of strings (`[][]string`). */
module Json {
  import opened Wrappers

  datatype Value =
    | JNull                          // Go's nil interface marshals to null
    | JBool(b: bool)
    | JNumber(n: int)
    | JString(s: string)
    | JArray(items: seq<Value>)
    | JObject(members: seq<(string, Value)>)

  /** The JSON value that a Go `[]string` marshals to. */
  function StringArray(ss: seq<string>): (v: Value)
    ensures v.JArray? && |v.items| == |ss|
  {
    JArray(seq(|ss|, i requires 0 <= i < |ss| => JString(ss[i])))
  }

  /** The JSON value that a Go `[][]string` marshals to. */
  function StringMatrix(rows: seq<seq<string>>): (v: Value)
    ensures v.JArray? && |v.items| == |rows|
  {
    JArray(seq(|rows|, i requires 0 <= i < |rows| => StringArray(rows[i])))
  }

  /** Reads a sequence of JSON values as strings; None as soon as one is not a string. */
  function AsStrings(items: seq<Value>): (r: Option<seq<string>>)
    ensures r.Some? ==> |r.value| == |items|
    ensures r.Some? <==> forall i :: 0 <= i < |items| ==> items[i].JString?
  {
    if items == [] then Some([])
    else if !items[0].JString? then None
    else match AsStrings(items[1..])
      case None => None
      case Some(rest) => Some([items[0].s] + rest)
  }

  /** Reads a JSON value as a list of strings. */
  function StringList(v: Value): Option<seq<string>> {
    if v.JArray? then AsStrings(v.items) else None
  }

  /** Reads a sequence of JSON values as lists of strings. */
  function AsStringLists(items: seq<Value>): (r: Option<seq<seq<string>>>)
    ensures r.Some? ==> |r.value| == |items|
  {
    if items == [] then Some([])
    else match (StringList(items[0]), AsStringLists(items[1..]))
      case (Some(first), Some(rest)) => Some([first] + rest)
      case _ => None
  }

  /** Reads a JSON value as a list of lists of strings. */
  function StringLists(v: Value): Option<seq<seq<string>>> {
    if v.JArray? then AsStringLists(v.items) else None
  }

  lemma {:induction false} AsStringsOfStrings(ss: seq<string>)
    ensures AsStrings(StringArray(ss).items) == Some(ss)
  {
    if ss != [] {
      assert StringArray(ss).items[1..] == StringArray(ss[1..]).items;
      AsStringsOfStrings(ss[1..]);
      assert [ss[0]] + ss[1..] == ss;
    }
  }

  /** Reading back a marshalled `[]string` gives the same list. */
  lemma StringListRoundTrip(ss: seq<string>)
    ensures StringList(StringArray(ss)) == Some(ss)
  {
    AsStringsOfStrings(ss);
  }

  lemma {:induction false} AsStringListsOfMatrix(rows: seq<seq<string>>)
    ensures AsStringLists(StringMatrix(rows).items) == Some(rows)
  {
    if rows != [] {
      assert StringMatrix(rows).items[0] == StringArray(rows[0]);
      assert StringMatrix(rows).items[1..] == StringMatrix(rows[1..]).items;
      StringListRoundTrip(rows[0]);
      AsStringListsOfMatrix(rows[1..]);
      assert [rows[0]] + rows[1..] == rows;
    }
  }

  /** Reading back a marshalled `[][]string` gives the same lists, in order. */
  lemma StringListsRoundTrip(rows: seq<seq<string>>)
    ensures StringLists(StringMatrix(rows)) == Some(rows)
  {
    AsStringListsOfMatrix(rows);
  }
}
