/** The list of header fields of a request, most recently read first. */
module Headers {
  import opened Connections

  /** `v` is the value of the first field in the list whose name is exactly `name`. */
  ghost predicate FirstMatch(headers: seq<Header>, name: string, v: string) {
    exists i :: && 0 <= i < |headers| && headers[i] == Header(name, v)
                && forall j | 0 <= j < i :: headers[j].name != name
  }

  method GetHeader(headers: seq<Header>, name: string) returns (value: Option<string>)
    ensures value == Lookup(headers, name)
  {
    var cursor := headers;
    while cursor != []
      invariant Lookup(headers, name) == Lookup(cursor, name)
      decreases |cursor|
    {
      if cursor[0].name == name {
        return Some(cursor[0].value);
      }
      cursor := cursor[1..];
    }
    value := None;
  }

  function Lookup(headers: seq<Header>, name: string): Option<string> {
    if headers == [] then None
    else if headers[0].name == name then Some(headers[0].value)
    else Lookup(headers[1..], name)
  }

  lemma {:induction false} LookupIsFirstMatch(headers: seq<Header>, name: string)
    ensures Lookup(headers, name) == None <==> forall i | 0 <= i < |headers| :: headers[i].name != name
    ensures forall v :: Lookup(headers, name) == Some(v) <==> FirstMatch(headers, name, v)
  {
    if headers != [] {
      LookupIsFirstMatch(headers[1..], name);
      if headers[0].name != name {
        forall v ensures FirstMatch(headers, name, v) <==> FirstMatch(headers[1..], name, v) {
          if FirstMatch(headers, name, v) {
            var i :| 0 <= i < |headers| && headers[i] == Header(name, v)
                     && forall j | 0 <= j < i :: headers[j].name != name;
            assert headers[1..][i - 1] == Header(name, v);
          }
          if FirstMatch(headers[1..], name, v) {
            var i :| 0 <= i < |headers[1..]| && headers[1..][i] == Header(name, v)
                     && forall j | 0 <= j < i :: headers[1..][j].name != name;
            assert headers[i + 1] == Header(name, v);
            forall j | 0 <= j < i + 1 ensures headers[j].name != name {
              assert j > 0 ==> headers[j] == headers[1..][j - 1];
            }
          }
        }
      } else {
        forall v ensures FirstMatch(headers, name, v) <==> v == headers[0].value {
          if v == headers[0].value {
            assert headers[0] == Header(name, v);
          }
        }
      }
    }
  }

  /** A new field goes right behind the first one; the list handed in is the list returned. */
  method AddHeader(headers: seq<Header>, name: string, value: string) returns (list: seq<Header>)
    ensures |list| == |headers| + 1 && multiset(list) == multiset(headers) + multiset{Header(name, value)}
    ensures headers != [] ==> list[0] == headers[0] && list[1] == Header(name, value) && list[2..] == headers[1..]
  {
    if headers == [] {
      return [Header(name, value)];
    }
    assert headers == [headers[0]] + headers[1..];
    list := [headers[0]] + ([Header(name, value)] + headers[1..]);
  }

  // ---------- Fields as text ----------

  function PrintField(h: Header, eol: string): string {
    h.name + (": " + (h.value + eol))
  }

  function PrintFields(hs: seq<Header>, eol: string): string {
    if hs == [] then "" else PrintField(hs[0], eol) + PrintFields(hs[1..], eol)
  }
}
