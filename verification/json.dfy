/** Parsed JSON values as the response body delivers them. */
module Json {
  import opened Results

  /** A JSON value. Numbers are integers; an object keeps its members in source order. */
  datatype Json =
    | Null
    | Bool(b: bool)
    | Num(n: int)
    | Str(s: string)
    | Arr(items: seq<Json>)
    | Obj(fields: seq<(string, Json)>)

  /** True when no member of `fields` is named `key`. */
  predicate KeyAbsent(fields: seq<(string, Json)>, key: string) {
    forall i :: 0 <= i < |fields| ==> fields[i].0 != key
  }

  /**
   * Property access on an object: the value of the LAST member named `key`
   * (JSON.parse keeps the last of duplicate keys), `None` for `undefined`.
   */
  function Get(fields: seq<(string, Json)>, key: string): (r: Option<Json>)
    ensures r.None? <==> KeyAbsent(fields, key)
    ensures r.Some? ==> (key, r.value) in fields
  {
    if |fields| == 0 then None
    else if fields[|fields| - 1].0 == key then Some(fields[|fields| - 1].1)
    else Get(fields[..|fields| - 1], key)
  }

  /** Of duplicate members, the last one is the one read. */
  lemma {:induction false} GetLastWins(front: seq<(string, Json)>, key: string, v: Json, back: seq<(string, Json)>)
    requires KeyAbsent(back, key)
    ensures Get(front + [(key, v)] + back, key) == Some(v)
  {
    if |back| > 0 {
      var all := front + [(key, v)] + back;
      assert all[..|all| - 1] == front + [(key, v)] + back[..|back| - 1];
      GetLastWins(front, key, v, back[..|back| - 1]);
    } else {
      assert front + [(key, v)] + back == front + [(key, v)];
    }
  }

  /** The member at `i` is the one read when no later member has its name. */
  lemma {:induction false} GetAt(fields: seq<(string, Json)>, i: nat)
    requires i < |fields| && KeyAbsent(fields[i + 1..], fields[i].0)
    ensures Get(fields, fields[i].0) == Some(fields[i].1)
  {
    var n := |fields| - 1;
    if i < n {
      var front := fields[..n];
      assert fields[n].0 != fields[i].0 by {
        assert fields[i + 1..][n - i - 1] == fields[n];
      }
      assert front[i] == fields[i];
      assert KeyAbsent(front[i + 1..], fields[i].0) by {
        assert front[i + 1..] == fields[i + 1..][..n - i - 1];
      }
      GetAt(front, i);
    }
  }

  /** Replacing one member's value changes no lookup under any other name. */
  lemma {:induction false} GetReplaced(front: seq<(string, Json)>, key: string, v: Json, w: Json, back: seq<(string, Json)>, k: string)
    requires k != key
    ensures Get(front + [(key, v)] + back, k) == Get(front + [(key, w)] + back, k)
  {
    var a := front + [(key, v)] + back;
    var b := front + [(key, w)] + back;
    if |back| == 0 {
      assert a[..|a| - 1] == front == b[..|b| - 1];
    } else {
      assert a[..|a| - 1] == front + [(key, v)] + back[..|back| - 1];
      assert b[..|b| - 1] == front + [(key, w)] + back[..|back| - 1];
      GetReplaced(front, key, v, w, back[..|back| - 1], k);
    }
  }

  /** Appending a member changes no lookup under any other name. */
  lemma GetAppended(fields: seq<(string, Json)>, key: string, v: Json, k: string)
    requires k != key
    ensures Get(fields + [(key, v)], k) == Get(fields, k)
  {
    assert (fields + [(key, v)])[..|fields|] == fields;
  }

  /** The members of `fields` with every name rewritten by `rename`, values and order kept. */
  function RenameKeys(fields: seq<(string, Json)>, rename: string -> string): (r: seq<(string, Json)>)
    ensures |r| == |fields|
    ensures forall i :: 0 <= i < |fields| ==> r[i] == (rename(fields[i].0), fields[i].1)
  {
    seq(|fields|, i requires 0 <= i < |fields| => (rename(fields[i].0), fields[i].1))
  }

  /** Looking a renamed member up under its new name finds the original value. */
  lemma {:induction false} GetRenamed(fields: seq<(string, Json)>, rename: string -> string, key: string)
    requires forall i :: 0 <= i < |fields| && rename(fields[i].0) == rename(key) ==> fields[i].0 == key
    ensures Get(RenameKeys(fields, rename), rename(key)) == Get(fields, key)
  {
    if |fields| > 0 {
      var n := |fields| - 1;
      var r := RenameKeys(fields, rename);
      assert r[..n] == RenameKeys(fields[..n], rename);
      if fields[n].0 != key {
        GetRenamed(fields[..n], rename, key);
      }
    }
  }

  /** A name no member is renamed to is absent after renaming. */
  lemma GetRenamedAbsent(fields: seq<(string, Json)>, rename: string -> string, name: string)
    requires forall i :: 0 <= i < |fields| ==> rename(fields[i].0) != name
    ensures Get(RenameKeys(fields, rename), name) == None
  {
  }
}
