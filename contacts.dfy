/**
 * The contact record the launcher lists, and the pin-list updates that the
 * "Pin Contact" toggles perform on sequences of such records.
 */
module Contacts {

  /** The icon of a contact; an empty path stands for a missing or empty `icon.path`. */
  datatype Icon = Icon(path: string)

  /**
   * A search result. `arg` is the chat id the record is keyed by; an empty
   * `title` or `subtitle` stands for an absent or empty one (JavaScript
   * treats both as false).
   */
  datatype SearchResult = SearchResult(arg: string, title: string, subtitle: string, icon: Icon, url: string)

  /** `xs.some(c => c.arg === a)`. */
  predicate HasArg(xs: seq<SearchResult>, a: string) {
    exists k :: 0 <= k < |xs| && xs[k].arg == a
  }

  /** No two entries share an `arg`. */
  predicate NoDuplicateArgs(xs: seq<SearchResult>) {
    forall i, j :: 0 <= i < j < |xs| ==> xs[i].arg != xs[j].arg
  }

  /** The number of entries keyed by `a`. */
  function CountArg(xs: seq<SearchResult>, a: string): nat {
    if xs == [] then 0 else (if xs[0].arg == a then 1 else 0) + CountArg(xs[1..], a)
  }

  /** `sub` is obtained from `xs` by deleting entries, keeping the order of the rest. */
  predicate IsSubsequence<T(==)>(sub: seq<T>, xs: seq<T>)
    decreases |xs|
  {
    if sub == [] then true
    else if xs == [] then false
    else (sub[0] == xs[0] && IsSubsequence(sub[1..], xs[1..])) || IsSubsequence(sub, xs[1..])
  }

  /** Every entry of a subsequence is an entry of the sequence. */
  lemma {:induction false} SubsequenceMembers<T>(sub: seq<T>, xs: seq<T>, x: T)
    requires IsSubsequence(sub, xs) && x in sub
    ensures x in xs
    decreases |xs|
  {
    if sub[0] == xs[0] && IsSubsequence(sub[1..], xs[1..]) {
      if x != sub[0] {
        SubsequenceMembers(sub[1..], xs[1..], x);
      }
    } else {
      SubsequenceMembers(sub, xs[1..], x);
    }
  }

  /**
   * The Pinned section's toggle, `pinned.filter(c => c.arg !== a)`: the result
   * keeps, in their original order, exactly the entries not keyed by `a`.
   */
  function WithoutArg(xs: seq<SearchResult>, a: string): (r: seq<SearchResult>)
    ensures IsSubsequence(r, xs)
    ensures |r| == |xs| - CountArg(xs, a)
    ensures !HasArg(r, a)
    ensures forall k :: 0 <= k < |xs| && xs[k].arg != a ==> xs[k] in r
    decreases |xs|
  {
    if xs == [] then []
    else
      var rest := WithoutArg(xs[1..], a);
      assert forall k :: 1 <= k < |xs| ==> xs[k] == xs[1..][k - 1];
      if xs[0].arg != a then [xs[0]] + rest else rest
  }

  /** The Recent and Contacts sections' toggle, `[...pinned, c]`. */
  function WithPinned(xs: seq<SearchResult>, c: SearchResult): (r: seq<SearchResult>)
    ensures |r| == |xs| + 1 && r[..|xs|] == xs && r[|xs|] == c
  {
    xs + [c]
  }

  /** Removing entries keyed by `a` from a list that has none changes nothing. */
  lemma {:induction false} WithoutAbsentArg(xs: seq<SearchResult>, a: string)
    requires !HasArg(xs, a)
    ensures WithoutArg(xs, a) == xs
    decreases |xs|
  {
    if xs != [] {
      assert !HasArg(xs[1..], a) by {
        forall k | 0 <= k < |xs[1..]| ensures xs[1..][k].arg != a {
          assert xs[1..][k] == xs[k + 1];
        }
      }
      WithoutAbsentArg(xs[1..], a);
    }
  }

  /** Filtering distributes over concatenation. */
  lemma {:induction false} WithoutArgAppend(xs: seq<SearchResult>, ys: seq<SearchResult>, a: string)
    ensures WithoutArg(xs + ys, a) == WithoutArg(xs, a) + WithoutArg(ys, a)
    decreases |xs|
  {
    if xs != [] {
      assert (xs + ys)[1..] == xs[1..] + ys;
      WithoutArgAppend(xs[1..], ys, a);
    } else {
      assert xs + ys == ys;
    }
  }

  /** Pinning a contact that is not pinned yet and then unpinning it restores the list exactly. */
  lemma PinThenUnpin(xs: seq<SearchResult>, c: SearchResult)
    requires !HasArg(xs, c.arg)
    ensures WithoutArg(WithPinned(xs, c), c.arg) == xs
  {
    WithoutArgAppend(xs, [c], c.arg);
    WithoutAbsentArg(xs, c.arg);
    assert [c][1..] == [];
  }

  /** Pinning a contact that is not pinned yet keeps the `arg`s distinct. */
  lemma PinKeepsArgsDistinct(xs: seq<SearchResult>, c: SearchResult)
    requires NoDuplicateArgs(xs) && !HasArg(xs, c.arg)
    ensures NoDuplicateArgs(WithPinned(xs, c))
  {
    var r := WithPinned(xs, c);
    forall i, j | 0 <= i < j < |r| ensures r[i].arg != r[j].arg {
      if j == |xs| {
        assert r[i] == xs[i];
      } else {
        assert r[i] == xs[i] && r[j] == xs[j];
      }
    }
  }

  /** Unpinning keeps the `arg`s distinct. */
  lemma {:induction false} UnpinKeepsArgsDistinct(xs: seq<SearchResult>, a: string)
    requires NoDuplicateArgs(xs)
    ensures NoDuplicateArgs(WithoutArg(xs, a))
    decreases |xs|
  {
    if xs != [] {
      var tail := xs[1..];
      assert NoDuplicateArgs(tail) by {
        forall i, j | 0 <= i < j < |tail| ensures tail[i].arg != tail[j].arg {
          assert tail[i] == xs[i + 1] && tail[j] == xs[j + 1];
        }
      }
      UnpinKeepsArgsDistinct(tail, a);
      var rest := WithoutArg(tail, a);
      if xs[0].arg != a {
        var r := [xs[0]] + rest;
        forall j | 0 <= j < |rest| ensures rest[j].arg != xs[0].arg {
          SubsequenceMembers(rest, tail, rest[j]);
          var k :| 0 <= k < |tail| && tail[k] == rest[j];
          assert tail[k] == xs[k + 1];
        }
        forall i, j | 0 <= i < j < |r| ensures r[i].arg != r[j].arg {
          if i == 0 {
            assert r[j] == rest[j - 1];
          } else {
            assert r[i] == rest[i - 1] && r[j] == rest[j - 1];
          }
        }
      }
    }
  }

  /** In a list with distinct `arg`s, unpinning a pinned `arg` removes exactly one entry. */
  lemma UnpinRemovesOne(xs: seq<SearchResult>, a: string)
    requires NoDuplicateArgs(xs) && HasArg(xs, a)
    ensures |WithoutArg(xs, a)| == |xs| - 1
  {
    var k :| 0 <= k < |xs| && xs[k].arg == a;
    CountIsOneWhenDistinct(xs, a, k);
  }

  lemma {:induction false} CountIsOneWhenDistinct(xs: seq<SearchResult>, a: string, k: nat)
    requires NoDuplicateArgs(xs) && k < |xs| && xs[k].arg == a
    ensures CountArg(xs, a) == 1
    decreases |xs|
  {
    var tail := xs[1..];
    if k == 0 {
      assert !HasArg(tail, a) by {
        forall j | 0 <= j < |tail| ensures tail[j].arg != a {
          assert tail[j] == xs[j + 1];
        }
      }
      CountZeroWhenAbsent(tail, a);
    } else {
      assert NoDuplicateArgs(tail) by {
        forall i, j | 0 <= i < j < |tail| ensures tail[i].arg != tail[j].arg {
          assert tail[i] == xs[i + 1] && tail[j] == xs[j + 1];
        }
      }
      assert tail[k - 1] == xs[k];
      CountIsOneWhenDistinct(tail, a, k - 1);
    }
  }

  lemma {:induction false} CountZeroWhenAbsent(xs: seq<SearchResult>, a: string)
    requires !HasArg(xs, a)
    ensures CountArg(xs, a) == 0
    decreases |xs|
  {
    if xs != [] {
      assert !HasArg(xs[1..], a) by {
        forall j | 0 <= j < |xs[1..]| ensures xs[1..][j].arg != a {
          assert xs[1..][j] == xs[j + 1];
        }
      }
      CountZeroWhenAbsent(xs[1..], a);
    }
  }
}
