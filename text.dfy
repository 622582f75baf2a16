/**
 * `String.prototype.split` with a non-empty separator, used to break the
 * settings address into one line per branch.
 */
module Text {
  import opened Wrappers

  /** The separator the footer splits the address on. */
  const BranchSeparator := " / "

  /** True when `sep` occurs in `s` starting at index `i`. */
  predicate OccursAt(s: string, sep: string, i: nat) {
    i + |sep| <= |s| && s[i..i + |sep|] == sep
  }

  /** True when `sep` occurs nowhere in `s`. */
  predicate Free(s: string, sep: string) {
    forall i: nat :: i < |s| ==> !OccursAt(s, sep, i)
  }

  /** The first index at or after `from` where `sep` occurs in `s`, if any. */
  function Find(s: string, sep: string, from: nat): (r: Option<nat>)
    requires |sep| > 0
    ensures r.Some? ==> from <= r.value && OccursAt(s, sep, r.value)
    ensures r.Some? ==> forall i: nat :: from <= i < r.value ==> !OccursAt(s, sep, i)
    ensures r.None? ==> forall i: nat :: from <= i ==> !OccursAt(s, sep, i)
    decreases |s| - from
  {
    if from + |sep| > |s| then None
    else if s[from..from + |sep|] == sep then Some(from)
    else Find(s, sep, from + 1)
  }

  /** The parts joined back together with `sep` between each two. */
  function Join(parts: seq<string>, sep: string): (r: string) {
    if parts == [] then ""
    else if |parts| == 1 then parts[0]
    else parts[0] + sep + Join(parts[1..], sep)
  }

  /**
   * The pieces of `s` between the leftmost non-overlapping occurrences of
   * `sep`: joining them with `sep` gives `s` back, and none contains `sep`.
   */
  function Split(s: string, sep: string): (parts: seq<string>)
    requires |sep| > 0
    ensures |parts| >= 1
    ensures Join(parts, sep) == s
    ensures forall k :: 0 <= k < |parts| ==> Free(parts[k], sep)
    decreases |s|
  {
    match Find(s, sep, 0)
    case None =>
      assert Free(s, sep);
      [s]
    case Some(i) =>
      var head, tail := s[..i], s[i + |sep|..];
      assert s == head + sep + tail by {
        assert s[i..i + |sep|] == sep;
      }
      assert Free(head, sep) by {
        forall j: nat | j < |head| ensures !OccursAt(head, sep, j) {
          if j + |sep| <= |head| {
            assert head[j..j + |sep|] == s[j..j + |sep|];
            assert !OccursAt(s, sep, j);
          }
        }
      }
      [head] + Split(tail, sep)
  }

  /**
   * The cuts of `Split` are at the leftmost occurrences: a single part exactly
   * when `sep` does not occur, otherwise the first part ends at the first
   * occurrence and the rest is the split of what follows it.
   */
  lemma SplitCutsLeftmost(s: string, sep: string)
    requires |sep| > 0
    ensures |Split(s, sep)| == 1 <==> Find(s, sep, 0).None?
    ensures |Split(s, sep)| > 1 ==>
      var i := |Split(s, sep)[0]|;
      Find(s, sep, 0) == Some(i) && Split(s, sep)[1..] == Split(s[i + |sep|..], sep)
  {
  }

  /** A string without '/' holds no occurrence of the branch separator. */
  lemma {:induction false} NoSlashIsFree(s: string)
    requires '/' !in s
    ensures Free(s, BranchSeparator)
  {
    forall i: nat | i < |s| ensures !OccursAt(s, BranchSeparator, i) {
      if i + 3 <= |s| {
        assert s[i..i + 3][1] == s[i + 1] != '/';
      }
    }
  }

  /**
   * Two slash-free branch descriptions joined by the separator split back
   * into exactly those two descriptions.
   */
  lemma {:induction false} SplitTwoBranches(a: string, b: string)
    requires '/' !in a && '/' !in b
    ensures Split(a + BranchSeparator + b, BranchSeparator) == [a, b]
  {
    var sep := BranchSeparator;
    var s := a + sep + b;
    assert OccursAt(s, sep, |a|) by {
      assert s[|a|..|a| + 3] == sep;
    }
    forall i: nat | i < |a| ensures !OccursAt(s, sep, i) {
      if i + 1 < |a| {
        assert s[i + 1] == a[i + 1];
      } else {
        assert s[i + 1] == sep[0];
      }
      assert s[i..i + 3][1] == s[i + 1] != '/';
    }
    assert Find(s, sep, 0) == Some(|a|);
    assert s[..|a|] == a;
    assert s[|a| + 3..] == b;
    NoSlashIsFree(b);
    var rest := Find(b, sep, 0);
    assert rest.Some? ==> !OccursAt(b, sep, rest.value);
  }
}
