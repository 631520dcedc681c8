/** Sequence helpers with Python's meaning: `str.split(sep)`, the first
    occurrence of an element, filtering in order, and a keyed store in which
    saving replaces the record with the same key or appends a new one. */
module Seqs {
  import opened Wrappers

  /** `s.split(sep)`: the pieces between separators, always at least one. */
  function Split<T(==)>(s: seq<T>, sep: T): (parts: seq<seq<T>>)
    ensures |parts| >= 1
    ensures forall i :: 0 <= i < |parts| ==> sep !in parts[i]
    ensures |parts[0]| <= |s| && parts[0] == s[..|parts[0]|]
    ensures |parts[0]| == |s| || s[|parts[0]|] == sep
    ensures |parts| == 1 <==> sep !in s
  {
    if |s| == 0 then [[]]
    else if s[0] == sep then [[]] + Split(s[1..], sep)
    else
      var rest := Split(s[1..], sep);
      assert sep in s[1..] ==> sep in s by {
        if sep in s[1..] {
          var k :| 0 <= k < |s[1..]| && s[1..][k] == sep;
          assert s[k + 1] == sep;
        }
      }
      [[s[0]] + rest[0]] + rest[1..]
  }

  /** `sep.join(parts)`. */
  function Join<T>(parts: seq<seq<T>>, sep: T): seq<T>
    requires |parts| >= 1
  {
    if |parts| == 1 then parts[0] else parts[0] + [sep] + Join(parts[1..], sep)
  }

  /** Joining the pieces of a split with the same separator gives the text back. */
  lemma {:induction false} JoinSplit<T>(s: seq<T>, sep: T)
    ensures Join(Split(s, sep), sep) == s
  {
    if |s| == 0 {
    } else if s[0] == sep {
      JoinSplit(s[1..], sep);
      assert Split(s, sep) == [[]] + Split(s[1..], sep);
      assert [sep] + s[1..] == s;
    } else {
      JoinSplit(s[1..], sep);
      var rest := Split(s[1..], sep);
      assert Split(s, sep) == [[s[0]] + rest[0]] + rest[1..];
      JoinPrepend(s[0], rest, sep);
      assert [s[0]] + s[1..] == s;
    }
  }

  /** Prefixing the first piece prefixes the joined text. */
  lemma {:induction false} JoinPrepend<T>(c: T, parts: seq<seq<T>>, sep: T)
    requires |parts| >= 1
    ensures Join([[c] + parts[0]] + parts[1..], sep) == [c] + Join(parts, sep)
  {
    var ps := [[c] + parts[0]] + parts[1..];
    assert |ps| == |parts| && ps[0] == [c] + parts[0];
    if |parts| > 1 {
      assert ps[1..] == parts[1..];
      var j := Join(parts[1..], sep);
      assert Join(ps, sep) == ([c] + parts[0]) + [sep] + j;
      assert Join(parts, sep) == parts[0] + [sep] + j;
    }
  }

  /** When the separator occurs, the pieces after the first are the split of
      what follows the first separator. */
  lemma {:induction false} SplitTail<T>(s: seq<T>, sep: T)
    requires sep in s
    ensures |Split(s, sep)[0]| < |s|
    ensures Split(s, sep)[1..] == Split(s[|Split(s, sep)[0]| + 1..], sep)
  {
    if s[0] != sep {
      assert sep in s[1..] by {
        var k :| 0 <= k < |s| && s[k] == sep;
        assert s[1..][k - 1] == sep;
      }
      SplitTail(s[1..], sep);
      var rest := Split(s[1..], sep);
      assert Split(s, sep) == [[s[0]] + rest[0]] + rest[1..];
      assert s[1..][|rest[0]| + 1..] == s[|rest[0]| + 2..];
    }
  }

  /** The first piece of a split is `w` exactly when `s` starts with `w`
      and `w` is followed by the separator or by nothing. */
  lemma FirstPieceIs<T>(s: seq<T>, sep: T, w: seq<T>)
    requires sep !in w
    ensures Split(s, sep)[0] == w <==>
              |w| <= |s| && s[..|w|] == w && (|w| == |s| || s[|w|] == sep)
  {
    var p := Split(s, sep)[0];
    if |w| <= |s| && s[..|w|] == w && (|w| == |s| || s[|w|] == sep) {
      if |p| < |w| {
        assert false;
      } else if |p| > |w| {
        assert false;
      }
    }
  }

  /** The index of the first `x` in `s`. */
  function FirstIndex<T(==)>(s: seq<T>, x: T): (i: nat)
    requires x in s
    ensures i < |s| && s[i] == x && x !in s[..i]
  {
    if s[0] == x then 0
    else
      assert x in s[1..] by {
        var k :| 0 <= k < |s| && s[k] == x;
        assert s[1..][k - 1] == x;
      }
      var j := FirstIndex(s[1..], x);
      assert s[..j + 1] == [s[0]] + s[1..][..j];
      j + 1
  }

  /** An occurrence with none before it is the first one. */
  lemma FirstIndexIs<T>(s: seq<T>, x: T, k: nat)
    requires k < |s| && s[k] == x && x !in s[..k]
    ensures x in s && FirstIndex(s, x) == k
  {
  }

  /** The elements of `s` that satisfy `keep`, in their original order. */
  function Filter<T(!new)>(s: seq<T>, keep: T -> bool): (r: seq<T>)
    ensures |r| <= |s|
    ensures forall x :: x in r <==> x in s && keep(x)
  {
    if |s| == 0 then []
    else
      var rest := Filter(s[1..], keep);
      assert forall x :: x in s <==> x == s[0] || x in s[1..];
      if keep(s[0]) then [s[0]] + rest else rest
  }

  /** The head of a filtered sequence is the first element that passes. */
  lemma {:induction false} FilterHead<T(!new)>(s: seq<T>, keep: T -> bool)
    requires |Filter(s, keep)| > 0
    ensures exists i :: 0 <= i < |s| && s[i] == Filter(s, keep)[0] && keep(s[i]) &&
              forall j :: 0 <= j < i ==> !keep(s[j])
  {
    if keep(s[0]) {
      assert s[0] == Filter(s, keep)[0];
    } else {
      FilterHead(s[1..], keep);
      var i :| 0 <= i < |s[1..]| && s[1..][i] == Filter(s[1..], keep)[0] && keep(s[1..][i]) &&
               forall j :: 0 <= j < i ==> !keep(s[1..][j]);
      assert s[i + 1] == Filter(s, keep)[0];
      assert forall j :: 1 <= j < i + 1 ==> !keep(s[j]) by {
        forall j | 1 <= j < i + 1 ensures !keep(s[j]) {
          assert s[j] == s[1..][j - 1];
        }
      }
    }
  }

  /** The first record whose key is `k` (a lookup by id). */
  function Find<T>(s: seq<T>, key: T -> string, k: string): (r: Option<T>)
    ensures r.Some? ==> r.value in s && key(r.value) == k
    ensures r.Some? ==> exists i :: 0 <= i < |s| && s[i] == r.value && forall j :: 0 <= j < i ==> key(s[j]) != k
    ensures r.None? <==> forall i :: 0 <= i < |s| ==> key(s[i]) != k
  {
    if |s| == 0 then None
    else if key(s[0]) == k then Some(s[0])
    else
      var r := Find(s[1..], key, k);
      assert forall i :: 1 <= i < |s| ==> s[i] == s[1..][i - 1];
      r
  }

  /** Saving `x`: every record with the same key is replaced by `x`; when
      there is none, `x` is appended. */
  function Upsert<T>(s: seq<T>, key: T -> string, x: T): (r: seq<T>)
    ensures Find(r, key, key(x)) == Some(x)
    ensures forall y :: y in r ==> y == x || (y in s && key(y) != key(x))
    ensures forall y :: y in s && key(y) != key(x) ==> y in r
  {
    if Find(s, key, key(x)).Some? then
      var r := Replace(s, key, x);
      var f := Find(r, key, key(x));
      assert f.Some? && f.value in r && key(f.value) == key(x);
      r
    else
      FindAfterMisses(s, [x], key, key(x));
      s + [x]
  }

  /** A lookup that misses every record of `s` continues into what follows. */
  lemma {:induction false} FindAfterMisses<T>(s: seq<T>, t: seq<T>, key: T -> string, k: string)
    requires Find(s, key, k).None?
    ensures Find(s + t, key, k) == Find(t, key, k)
  {
    if |s| > 0 {
      assert (s + t)[1..] == s[1..] + t;
      FindAfterMisses(s[1..], t, key, k);
    } else {
      assert s + t == t;
    }
  }

  function Replace<T>(s: seq<T>, key: T -> string, x: T): (r: seq<T>)
    ensures |r| == |s|
    ensures forall i :: 0 <= i < |s| ==> r[i] == (if key(s[i]) == key(x) then x else s[i])
  {
    if |s| == 0 then []
    else [if key(s[0]) == key(x) then x else s[0]] + Replace(s[1..], key, x)
  }
}
