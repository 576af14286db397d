/** `URLSearchParams`, kept as its list of name/value pairs in insertion order. */
module UrlParams {
  import opened Wrappers

  /** A query: the pairs `append` has added, oldest first. */
  class SearchParams<V> {
    var entries: seq<(string, V)>

    /** `new URLSearchParams()`. */
    constructor ()
      ensures entries == []
    {
      entries := [];
    }

    /** `new URLSearchParams({ ... })`: one pair per property, in the literal's order. */
    constructor FromRecord(pairs: seq<(string, V)>)
      ensures entries == pairs
    {
      entries := pairs;
    }

    /** `params.append(name, value)`: a new last pair; an existing pair of that name stays. */
    method Append(name: string, value: V)
      modifies this
      ensures entries == old(entries) + [(name, value)]
    {
      entries := entries + [(name, value)];
    }
  }

  /** `params.has(name)`. */
  predicate Has<V>(entries: seq<(string, V)>, name: string) {
    exists i :: 0 <= i < |entries| && entries[i].0 == name
  }

  /** `params.get(name)`: the value of the FIRST pair with that name. */
  function Get<V>(entries: seq<(string, V)>, name: string): (r: Option<V>)
    ensures r.None? <==> !Has(entries, name)
    ensures r.Some? ==> exists i :: 0 <= i < |entries| && entries[i] == (name, r.value)
                                 && forall j :: 0 <= j < i ==> entries[j].0 != name
    decreases |entries|
  {
    if |entries| == 0 then None
    else if entries[0].0 == name then Some(entries[0].1)
    else
      var r := Get(entries[1..], name);
      if r.Some? then
        ghost var i :| 0 <= i < |entries[1..]| && entries[1..][i] == (name, r.value)
                      && forall j :: 0 <= j < i ==> entries[1..][j].0 != name;
        assert entries[i + 1] == (name, r.value);
        r
      else
        assert forall i :: 1 <= i < |entries| ==> entries[i] == entries[1..][i - 1];
        r
  }

  /** A name is in a concatenation when it is in either part. */
  lemma HasConcat<V>(a: seq<(string, V)>, b: seq<(string, V)>, name: string)
    ensures Has(a + b, name) <==> Has(a, name) || Has(b, name)
  {
    if Has(b, name) {
      var i :| 0 <= i < |b| && b[i].0 == name;
      assert (a + b)[|a| + i] == b[i];
    }
    if Has(a, name) {
      var i :| 0 <= i < |a| && a[i].0 == name;
      assert (a + b)[i] == a[i];
    }
    if Has(a + b, name) {
      var i :| 0 <= i < |a + b| && (a + b)[i].0 == name;
      if i < |a| {
        assert a[i] == (a + b)[i];
      } else {
        assert b[i - |a|] == (a + b)[i];
      }
    }
  }

  /** `get` on a concatenation finds the first part's pair when there is one, and looks in the second otherwise. */
  lemma {:induction false} GetConcat<V>(a: seq<(string, V)>, b: seq<(string, V)>, name: string)
    ensures Get(a + b, name) == if Has(a, name) then Get(a, name) else Get(b, name)
    decreases |a|
  {
    if |a| > 0 {
      assert (a + b)[1..] == a[1..] + b;
      GetConcat(a[1..], b, name);
      if a[0].0 != name {
        assert Has(a, name) <==> Has(a[1..], name) by {
          if Has(a, name) {
            var i :| 0 <= i < |a| && a[i].0 == name;
            assert a[1..][i - 1] == a[i];
          }
          if Has(a[1..], name) {
            var i :| 0 <= i < |a[1..]| && a[1..][i].0 == name;
            assert a[i + 1] == a[1..][i];
          }
        }
      }
    } else {
      assert a + b == b;
    }
  }

  /** The pair at `k` is the first of its name, so `get` returns its value. */
  lemma GetFirst<V>(entries: seq<(string, V)>, k: nat, name: string)
    requires k < |entries| && entries[k].0 == name
    requires forall j :: 0 <= j < k ==> entries[j].0 != name
    ensures Get(entries, name) == Some(entries[k].1)
  {
  }
}
