/** The first-match lookup shared by the id lookup tools (`Array.find` on the
    record's id, then a not-found text when nothing matched). */
module Lookup {
  import opened Wrappers

  /** The first record of `table` whose key is `id`, if any. */
  function Find<T>(table: seq<T>, key: T -> string, id: string): (r: Option<T>)
    ensures r.Some? <==> exists i :: 0 <= i < |table| && key(table[i]) == id
    ensures r.Some? ==> key(r.value) == id
    ensures r.Some? ==> exists i :: (0 <= i < |table| && table[i] == r.value
      && forall j :: 0 <= j < i ==> key(table[j]) != id)
  {
    if table == [] then None
    else if key(table[0]) == id then Some(table[0])
    else
      var r := Find(table[1..], key, id);
      assert forall i :: 0 < i < |table| ==> table[i] == table[1..][i - 1];
      assert r.Some? ==> exists i :: 0 < i < |table| && key(table[i]) == id by {
        if r.Some? {
          var i :| 0 <= i < |table[1..]| && key(table[1..][i]) == id;
          assert key(table[i + 1]) == id;
        }
      }
      assert r.Some? ==> exists i :: (0 <= i < |table| && table[i] == r.value
        && forall j :: 0 <= j < i ==> key(table[j]) != id) by {
        if r.Some? {
          var i :| 0 <= i < |table[1..]| && table[1..][i] == r.value
            && forall j :: 0 <= j < i ==> key(table[1..][j]) != id;
          assert table[i + 1] == r.value;
          assert forall j :: 0 < j < i + 1 ==> key(table[j]) != id by {
            forall j | 0 < j < i + 1 ensures key(table[j]) != id {
              assert table[j] == table[1..][j - 1];
            }
          }
        }
      }
      r
  }

  /** A lookup tool's answer: the record found, or the text shown to the user. */
  datatype LookupResult<T> = Found(record: T) | NotFound(message: string)

  /** The not-found text, e.g. `Product ID: X not found`. */
  function NotFoundMessage(kind: string, id: string): (r: string)
    ensures kind + " ID: " <= r
    ensures |r| == |kind| + |id| + 15
    ensures r[|kind| + 5..|r| - 10] == id && r[|r| - 10..] == " not found"
  {
    kind + " ID: " + id + " not found"
  }

  /** The not-found text names the id: two texts of one kind are equal only for the same id. */
  lemma NotFoundMessageInjective(kind: string, id1: string, id2: string)
    requires NotFoundMessage(kind, id1) == NotFoundMessage(kind, id2)
    ensures id1 == id2
  {
    var m := NotFoundMessage(kind, id1);
    assert id1 == m[|kind| + 5..|m| - 10];
  }

  /** Find the record, or report the id as not found. */
  function LookupById<T>(table: seq<T>, key: T -> string, kind: string, id: string): (r: LookupResult<T>)
    ensures r.Found? <==> Find(table, key, id).Some?
    ensures r.Found? ==> Find(table, key, id) == Some(r.record)
    ensures r.NotFound? ==> r.message == NotFoundMessage(kind, id)
  {
    match Find(table, key, id)
    case Some(record) => Found(record)
    case None => NotFound(NotFoundMessage(kind, id))
  }

  /** On a one-record table the lookup is an equality test on that record's key. */
  lemma LookupSingleton<T>(record: T, key: T -> string, kind: string, id: string)
    ensures LookupById([record], key, kind, id)
         == if key(record) == id then Found(record) else NotFound(NotFoundMessage(kind, id))
  {
    assert [record][1..] == [];
  }
}
