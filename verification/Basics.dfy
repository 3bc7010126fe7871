/** Small vocabulary shared by every component. */
module Basics {

  datatype Option<+T> = None | Some(value: T)

  function Last<T>(s: seq<T>): T
    requires |s| > 0
  {
    s[|s| - 1]
  }

  function Init<T>(s: seq<T>): seq<T>
    requires |s| > 0
  {
    s[..|s| - 1]
  }

  function Min(a: int, b: int): int {
    if a <= b then a else b
  }

  /** A stable sort puts each element after those that it does not go before. */
  function Insert<T>(sorted: seq<T>, x: T, before: (T, T) -> bool): seq<T> {
    if sorted == [] || !before(x, Last(sorted)) then sorted + [x]
    else Insert(Init(sorted), x, before) + [Last(sorted)]
  }

  function StableSort<T>(items: seq<T>, before: (T, T) -> bool): seq<T> {
    if items == [] then [] else Insert(StableSort(Init(items), before), Last(items), before)
  }

  /** No value occurs at two positions. */
  predicate Distinct<T(==)>(s: seq<T>) {
    forall i, j :: 0 <= i < j < |s| ==> s[i] != s[j]
  }

  /** Position of the first item with this name, or the length. */
  function PositionOf<T>(items: seq<T>, name: T -> string, key: string): (i: nat)
    ensures i <= |items|
    ensures i < |items| ==> name(items[i]) == key
    ensures forall j :: 0 <= j < i ==> name(items[j]) != key
  {
    if items == [] || name(items[0]) == key then 0
    else
      var k := PositionOf(items[1..], name, key);
      assert forall j :: 0 < j < |items| ==> items[j] == items[1..][j - 1];
      1 + k
  }

  /** A Redis key with this expiry still answers: keys live through their last millisecond. */
  predicate Alive(expiresAt: int, now: int) {
    now <= expiresAt
  }

  /** The code points that Python's str.strip and the pattern \s treat as whitespace. */
  const SPACES: seq<(int, int)> :=
    [(0x20, 0x20), (0x09, 0x0d), (0x1c, 0x1f), (0x85, 0x85), (0xa0, 0xa0), (0x1680, 0x1680),
     (0x2000, 0x200a), (0x2028, 0x2029), (0x202f, 0x202f), (0x205f, 0x205f), (0x3000, 0x3000)]

  predicate IsSpace(c: char) {
    exists i :: 0 <= i < |SPACES| && SPACES[i].0 <= c as int <= SPACES[i].1
  }

  lemma BlankIsSpace()
    ensures IsSpace(' ')
  {
    assert SPACES[0] == (0x20, 0x20);
  }

  /** Cutting at the last occurrence of a character is unambiguous. */
  lemma LastSeparator(a: string, b: string, c: string, d: string, sep: char)
    requires a + [sep] + b == c + [sep] + d && sep !in b && sep !in d
    ensures a == c && b == d
  {
    var s, t := a + [sep] + b, c + [sep] + d;
    assert s[|a|] == sep && t[|c|] == sep;
    assert forall k :: |a| < k < |s| ==> s[k] != sep by {
      assert forall k :: |a| < k < |s| ==> s[k] == b[k - |a| - 1];
    }
    assert forall k :: |c| < k < |t| ==> t[k] != sep by {
      assert forall k :: |c| < k < |t| ==> t[k] == d[k - |c| - 1];
    }
    assert a == s[..|a|] && c == t[..|c|] && b == s[|a| + 1..] && d == t[|c| + 1..];
  }

  /** So is cutting at the first. */
  lemma FirstSeparator(a: string, b: string, c: string, d: string, sep: char)
    requires a + [sep] + b == c + [sep] + d && sep !in a && sep !in c
    ensures a == c && b == d
  {
    var s, t := a + [sep] + b, c + [sep] + d;
    assert s[|a|] == sep && t[|c|] == sep;
    assert forall k :: 0 <= k < |a| ==> s[k] == a[k] && s[k] != sep;
    assert forall k :: 0 <= k < |c| ==> t[k] == c[k] && t[k] != sep;
    assert a == s[..|a|] && c == t[..|c|] && b == s[|a| + 1..] && d == t[|c| + 1..];
  }

  lemma SubsetIsSmaller<T>(a: set<T>, b: set<T>)
    requires a <= b
    ensures |a| <= |b|
  {
    assert b == a + (b - a);
  }

  lemma {:induction false} SizeBelow(keys: set<nat>, n: nat)
    requires forall r :: r in keys ==> r < n
    ensures |keys| <= n
  {
    if n > 0 {
      SizeBelow(keys - {n - 1}, n - 1);
      SubsetIsSmaller(keys, (keys - {n - 1}) + {n - 1});
    } else {
      assert keys == {};
    }
  }
}
