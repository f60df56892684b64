/** List operations the C# code relies on: `List.Contains` before `Add`
    (no duplicates) and `List.Remove` (drops the first occurrence). */
module Collections {

  datatype Option<T> = None | Some(value: T)

  predicate NoDuplicates<T(==)>(s: seq<T>)
  {
    forall i, j :: 0 <= i < j < |s| ==> s[i] != s[j]
  }

  /** `List.Add` guarded by `List.Contains`. */
  function AddIfAbsent<T(==)>(s: seq<T>, x: T): (r: seq<T>)
    ensures x in r
    ensures forall i :: 0 <= i < |s| ==> s[i] in r
    ensures forall i :: 0 <= i < |r| ==> r[i] in s || r[i] == x
    ensures NoDuplicates(s) ==> NoDuplicates(r)
    ensures x in s ==> r == s
  {
    if x in s then s else s + [x]
  }

  /** `List.Remove(x)`: the first occurrence of `x` goes, the rest keep their order. */
  function RemoveFirst<T(==)>(s: seq<T>, x: T): (r: seq<T>)
    ensures x !in s ==> r == s
    ensures x in s ==> |r| == |s| - 1
  {
    if s == [] then []
    else if s[0] == x then s[1..]
    else [s[0]] + RemoveFirst(s[1..], x)
  }

  /** Without duplicates, removing the first occurrence removes `x`
      altogether and keeps every other element. */
  lemma {:induction false} RemoveFirstRemovesAll<T>(s: seq<T>, x: T)
    requires NoDuplicates(s)
    ensures x !in RemoveFirst(s, x)
    ensures forall y :: y != x ==> (y in RemoveFirst(s, x) <==> y in s)
    ensures NoDuplicates(RemoveFirst(s, x))
  {
    if s != [] {
      assert NoDuplicates(s[1..]) by {
        forall i, j | 0 <= i < j < |s[1..]| ensures s[1..][i] != s[1..][j] {
          assert s[1..][i] == s[i + 1] && s[1..][j] == s[j + 1];
        }
      }
      if s[0] == x {
        assert forall k :: 0 <= k < |s[1..]| ==> s[1..][k] == s[k + 1];
      } else {
        RemoveFirstRemovesAll(s[1..], x);
        var r := RemoveFirst(s[1..], x);
        assert s[0] !in s[1..] by {
          forall k | 0 <= k < |s[1..]| ensures s[1..][k] != s[0] {
            assert s[1..][k] == s[k + 1];
          }
        }
        assert s[0] !in r;
        assert NoDuplicates([s[0]] + r) by {
          forall i, j | 0 <= i < j < |[s[0]] + r| ensures ([s[0]] + r)[i] != ([s[0]] + r)[j] {
            if i == 0 {
              assert ([s[0]] + r)[j] == r[j - 1];
            } else {
              assert ([s[0]] + r)[i] == r[i - 1] && ([s[0]] + r)[j] == r[j - 1];
            }
          }
        }
        assert forall y :: y in s <==> y == s[0] || y in s[1..];
      }
    }
  }
}
