/** Searching in strings, for the texts that the order service and the queue sender produce. */
module Text {
  import opened Common

  predicate OccursAt(s: string, part: string, i: nat) {
    i + |part| <= |s| && s[i..i + |part|] == part
  }

  predicate Contains(s: string, part: string) {
    exists i :: 0 <= i <= |s| && OccursAt(s, part, i)
  }

  lemma OccursInTail(s: string, part: string)
    requires s != ""
    ensures forall j :: 0 < j <= |s| ==> (OccursAt(s, part, j) <==> OccursAt(s[1..], part, j - 1))
    ensures !OccursAt(s, part, 0) && Contains(s, part) ==> Contains(s[1..], part)
  {
    var tail := s[1..];
    forall j | 0 < j <= |s|
      ensures OccursAt(s, part, j) <==> OccursAt(tail, part, j - 1)
    {
      var k := j - 1;
      if j + |part| <= |s| {
        assert tail[k..k + |part|] == s[j..j + |part|];
      }
    }
  }

  /** The first occurrence of `part` in `s`. */
  function IndexOf(s: string, part: string): (r: Option<nat>)
    ensures r.Some? ==> OccursAt(s, part, r.value) && r.value <= |s|
    ensures r.Some? ==> forall j :: 0 <= j < r.value ==> !OccursAt(s, part, j)
    ensures r.None? ==> !Contains(s, part)
  {
    if OccursAt(s, part, 0) then Some(0)
    else if s == "" then None
    else
      OccursInTail(s, part);
      match IndexOf(s[1..], part)
      case None => None
      case Some(i) => Some(i + 1)
  }

  /** A position that is the first occurrence is the one that is found. */
  lemma FoundFirst(s: string, part: string, i: nat)
    requires OccursAt(s, part, i)
    requires forall j :: 0 <= j < i ==> !OccursAt(s, part, j)
    ensures IndexOf(s, part) == Some(i)
  {
    assert Contains(s, part);
  }

  /** What stands before the first occurrence does not contain the part itself. */
  lemma NothingBeforeFirst(s: string, part: string)
    requires part != "" && IndexOf(s, part).Some?
    ensures !Contains(s[..IndexOf(s, part).value], part)
  {
    var i := IndexOf(s, part).value;
    forall j | 0 <= j <= i
      ensures !OccursAt(s[..i], part, j)
    {
      if OccursAt(s[..i], part, j) {
        assert s[j..j + |part|] == s[..i][j..j + |part|];
        assert OccursAt(s, part, j);
      }
    }
  }
}
