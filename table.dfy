/**
 * An ordered in-memory table of records, each carrying a string id, and the
 * three array operations every state slice builds its reducers from:
 *   - `findIndex` / `find`: the FIRST record whose id matches (FirstIndex);
 *   - `filter`: keep every record whose id differs (RemoveAll);
 *   - a change applied to the first match only (UpdateFirst, ReplaceFirst).
 * Ids are not assumed to be unique: the records are a plain sequence and the
 * key projection `key` says which string is a record's id.
 */
module Table {

  datatype Option<T> = None | Some(value: T)

  /** No record of `s` has the id `id`. */
  predicate Absent<T>(s: seq<T>, key: T -> string, id: string) {
    forall j :: 0 <= j < |s| ==> key(s[j]) != id
  }

  /** Position `j` holds the first record of `s` whose id is `id`. */
  predicate IsFirstMatch<T>(s: seq<T>, key: T -> string, id: string, j: int) {
    0 <= j < |s| && key(s[j]) == id && forall k :: 0 <= k < j ==> key(s[k]) != id
  }

  /** `findIndex(r => r.id === id)`, with -1 written as None. */
  function FirstIndex<T>(s: seq<T>, key: T -> string, id: string): (r: Option<nat>)
    ensures r.None? <==> Absent(s, key, id)
    ensures r.Some? ==> IsFirstMatch(s, key, id, r.value)
  {
    if |s| == 0 then None
    else if key(s[0]) == id then Some(0)
    else match FirstIndex(s[1..], key, id)
      case None => None
      case Some(i) => Some(i + 1)
  }

  /** `filter(r => r.id !== id)`: the records whose id differs, in their original order. */
  function RemoveAll<T>(s: seq<T>, key: T -> string, id: string): (r: seq<T>)
    ensures |r| <= |s|
    ensures Absent(r, key, id)
    ensures forall i :: 0 <= i < |r| ==> r[i] in s
    ensures forall j :: 0 <= j < |s| && key(s[j]) != id ==> s[j] in r
  {
    if |s| == 0 then []
    else if key(s[0]) == id then RemoveAll(s[1..], key, id)
    else [s[0]] + RemoveAll(s[1..], key, id)
  }

  /**
   * `const r = find(r => r.id === id); if (r) { ...change r in place... }`:
   * `f` is applied to the first record with the id and to no other.
   */
  function UpdateFirst<T>(s: seq<T>, key: T -> string, id: string, f: T -> T): (r: seq<T>)
    ensures |r| == |s|
    ensures forall j :: 0 <= j < |s| ==> r[j] == if IsFirstMatch(s, key, id, j) then f(s[j]) else s[j]
  {
    match FirstIndex(s, key, id)
    case None => s
    case Some(i) => s[i := f(s[i])]
  }

  /**
   * `const i = findIndex(r => r.id === x.id); if (i !== -1) { s[i] = x; }`:
   * the first record with the id of `x` is replaced by `x` as a whole.
   */
  function ReplaceFirst<T>(s: seq<T>, key: T -> string, x: T): (r: seq<T>)
    ensures |r| == |s|
    ensures forall j :: 0 <= j < |s| ==> r[j] == if IsFirstMatch(s, key, key(x), j) then x else s[j]
  {
    UpdateFirst(s, key, key(x), _ => x)
  }

  /** Where the first match is, the record found is the one `UpdateFirst` changes. */
  lemma UpdateFirstAt<T>(s: seq<T>, key: T -> string, id: string, f: T -> T)
    ensures FirstIndex(s, key, id).None? ==> UpdateFirst(s, key, id, f) == s
    ensures FirstIndex(s, key, id).Some? ==>
      var i := FirstIndex(s, key, id).value;
      UpdateFirst(s, key, id, f) == s[i := f(s[i])]
  {
  }

  /** The first index depends only on the ids of the records, position by position. */
  lemma {:induction false} FirstIndexByKeys<T>(s: seq<T>, t: seq<T>, key: T -> string, id: string)
    requires |s| == |t|
    requires forall j :: 0 <= j < |s| ==> key(s[j]) == key(t[j])
    ensures FirstIndex(s, key, id) == FirstIndex(t, key, id)
  {
    if |s| > 0 && key(s[0]) != id {
      FirstIndexByKeys(s[1..], t[1..], key, id);
    }
  }

  /**
   * A change that keeps the id of the record it changes keeps every lookup:
   * after it, `find` of any id stops at the same position as before.
   */
  lemma UpdateFirstKeepsLookups<T>(s: seq<T>, key: T -> string, id: string, f: T -> T, other: string)
    requires forall x :: key(x) == id ==> key(f(x)) == id
    ensures FirstIndex(UpdateFirst(s, key, id, f), key, other) == FirstIndex(s, key, other)
  {
    var r := UpdateFirst(s, key, id, f);
    forall j | 0 <= j < |s|
      ensures key(s[j]) == key(r[j])
    {
      if IsFirstMatch(s, key, id, j) {
        assert key(f(s[j])) == id;
      }
    }
    FirstIndexByKeys(s, r, key, other);
  }

  /**
   * Two changes of the same id in a row, the first keeping the id, act on the
   * same record: the result is their composition at the first match.
   */
  lemma UpdateFirstTwice<T>(s: seq<T>, key: T -> string, id: string, f: T -> T, g: T -> T)
    requires forall x :: key(x) == id ==> key(f(x)) == id
    ensures FirstIndex(s, key, id).None? ==>
      UpdateFirst(UpdateFirst(s, key, id, f), key, id, g) == s
    ensures FirstIndex(s, key, id).Some? ==>
      var i := FirstIndex(s, key, id).value;
      UpdateFirst(UpdateFirst(s, key, id, f), key, id, g) == s[i := g(f(s[i]))]
  {
    var r := UpdateFirst(s, key, id, f);
    UpdateFirstKeepsLookups(s, key, id, f, id);
    UpdateFirstAt(s, key, id, f);
    UpdateFirstAt(r, key, id, g);
  }

  /**
   * Two changes of the same id in a row, the first keeping the id, are one
   * change `h` whenever `h` does to a matching record what the two do together.
   */
  lemma UpdateFirstTwiceIs<T>(s: seq<T>, key: T -> string, id: string, f: T -> T, g: T -> T, h: T -> T)
    requires forall x :: key(x) == id ==> key(f(x)) == id
    requires forall x :: key(x) == id ==> g(f(x)) == h(x)
    ensures UpdateFirst(UpdateFirst(s, key, id, f), key, id, g) == UpdateFirst(s, key, id, h)
  {
    UpdateFirstTwice(s, key, id, f, g);
    UpdateFirstAt(s, key, id, h);
  }

  /**
   * Appending a record never moves the first match of an id already present;
   * the appended record is the first match of its id only when the id was absent.
   */
  lemma {:induction false} FirstIndexAppend<T>(s: seq<T>, key: T -> string, x: T, id: string)
    ensures FirstIndex(s + [x], key, id) ==
      if FirstIndex(s, key, id).Some? then FirstIndex(s, key, id)
      else if key(x) == id then Some(|s|)
      else None
  {
    if |s| > 0 && key(s[0]) != id {
      assert (s + [x])[1..] == s[1..] + [x];
      FirstIndexAppend(s[1..], key, x, id);
    }
  }

  /**
   * Filtering a concatenation filters each part: the kept records keep their
   * order. `RemoveAll`'s own ensures speak only of membership, which a
   * reordering or de-duplicating filter would also meet; this lemma, applied
   * to `[x] + rest`, is what pins the result down to `filter`.
   */
  lemma {:induction false} RemoveAllConcat<T>(a: seq<T>, b: seq<T>, key: T -> string, id: string)
    ensures RemoveAll(a + b, key, id) == RemoveAll(a, key, id) + RemoveAll(b, key, id)
  {
    if |a| > 0 {
      assert (a + b)[1..] == a[1..] + b;
      RemoveAllConcat(a[1..], b, key, id);
    } else {
      assert a + b == b;
    }
  }

  /** Filtering changes nothing exactly when no record has the id. */
  lemma {:induction false} RemoveAllUnchanged<T>(s: seq<T>, key: T -> string, id: string)
    ensures RemoveAll(s, key, id) == s <==> Absent(s, key, id)
  {
    if |s| > 0 {
      RemoveAllUnchanged(s[1..], key, id);
      if key(s[0]) != id {
        assert s == [s[0]] + s[1..];
      }
    }
  }

  /** Filtering twice by the same id is filtering once. */
  lemma RemoveAllIdempotent<T>(s: seq<T>, key: T -> string, id: string)
    ensures RemoveAll(RemoveAll(s, key, id), key, id) == RemoveAll(s, key, id)
  {
    RemoveAllUnchanged(RemoveAll(s, key, id), key, id);
  }
}
