/** Small vocabulary shared by the models of error.rb and api.rb: an optional
    value (Ruby's `nil` or a value) and predicates on strings and sequences. */
module Common {

  /** A Ruby value that may be `nil`. */
  datatype Option<+T> = None | Some(value: T)

  /** `s.start_with?(prefix)`. */
  predicate StartsWith(s: string, prefix: string) {
    |prefix| <= |s| && s[..|prefix|] == prefix
  }

  /** `s.end_with?(suffix)`. */
  predicate EndsWith(s: string, suffix: string) {
    |suffix| <= |s| && s[|s| - |suffix|..] == suffix
  }

  /** `s.include?(part)`: `part` occurs somewhere in `s`. */
  predicate Contains(s: string, part: string) {
    exists i :: 0 <= i <= |s| && StartsWith(s[i..], part)
  }

  /** No element occurs twice. */
  predicate NoDuplicates<T(==)>(s: seq<T>) {
    forall i, j :: 0 <= i < j < |s| ==> s[i] != s[j]
  }

  /** A string spliced between two others occurs in the result, which
      starts with the first of them and ends with the last. */
  lemma SplicedPart(before: string, part: string, after: string)
    ensures Contains(before + part + after, part)
    ensures StartsWith(before + part + after, before)
    ensures EndsWith(before + part + after, after)
  {
    var s := before + part + after;
    assert StartsWith(s[|before|..], part);
    assert s[..|before|] == before;
    assert s[|s| - |after|..] == after;
  }

  /** A string contains itself. */
  lemma ContainsItself(s: string)
    ensures Contains(s, s)
  {
    assert StartsWith(s[0..], s);
  }

  /** Appending to a string keeps what it contains. */
  lemma ContainsAppended(s: string, more: string, part: string)
    requires Contains(s, part)
    ensures Contains(s + more, part)
  {
    var i :| 0 <= i <= |s| && StartsWith(s[i..], part);
    assert (s + more)[i..][..|part|] == s[i..][..|part|];
  }

  /** Prepending to a string keeps what it contains. */
  lemma ContainsPrepended(more: string, s: string, part: string)
    requires Contains(s, part)
    ensures Contains(more + s, part)
  {
    var i :| 0 <= i <= |s| && StartsWith(s[i..], part);
    assert (more + s)[|more| + i..] == s[i..];
  }

  /** A sequence without duplicates has as many elements as distinct values. */
  lemma {:induction false} DistinctCount<T>(s: seq<T>)
    requires NoDuplicates(s)
    ensures |set x | x in s| == |s|
  {
    if s != [] {
      var rest := s[1..];
      assert NoDuplicates(rest) by {
        forall i, j | 0 <= i < j < |rest| ensures rest[i] != rest[j] {
          assert rest[i] == s[i + 1] && rest[j] == s[j + 1];
        }
      }
      DistinctCount(rest);
      assert s[0] !in rest by {
        forall j | 0 <= j < |rest| ensures rest[j] != s[0] {
          assert rest[j] == s[j + 1];
        }
      }
      assert (set x | x in s) == {s[0]} + (set x | x in rest);
    }
  }
}
