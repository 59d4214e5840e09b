/**
 * Namespace names: segments joined by a single `\` (PHP's `implode` with
 * that separator), and the split that undoes the join.
 */
module NamespaceNames {

  const Separator: char := '\\'

  /** `implode("\\", parts)`: the segments in order, one separator between neighbours. */
  function Join(parts: seq<string>): string {
    if |parts| == 0 then ""
    else if |parts| == 1 then parts[0]
    else parts[0] + [Separator] + Join(parts[1..])
  }

  /** The segments of `s` between separators, starting with the partial segment `cur`. */
  function SplitFrom(s: string, cur: string): seq<string>
    decreases |s|
  {
    if |s| == 0 then [cur]
    else if s[0] == Separator then [cur] + SplitFrom(s[1..], "")
    else SplitFrom(s[1..], cur + [s[0]])
  }

  /** The segments of a qualified name; the empty (global) name has none. */
  function Split(s: string): seq<string> {
    if s == "" then [] else SplitFrom(s, "")
  }

  /** A usable segment: an identifier text, never empty and never holding a separator. */
  predicate ValidSegment(p: string) {
    p != "" && Separator !in p
  }

  predicate ValidSegments(parts: seq<string>) {
    forall i :: 0 <= i < |parts| ==> ValidSegment(parts[i])
  }

  /** A name with no empty segment: no leading, trailing or doubled separator. */
  predicate NoEmptySegments(s: string) {
    forall i :: 0 <= i < |Split(s)| ==> Split(s)[i] != ""
  }

  lemma {:induction false} SplitFromSegment(p: string, rest: string, cur: string)
    requires Separator !in p
    ensures SplitFrom(p + rest, cur) == SplitFrom(rest, cur + p)
    decreases |p|
  {
    if |p| == 0 {
      assert p + rest == rest;
      assert cur + p == cur;
    } else {
      assert (p + rest)[0] == p[0];
      assert (p + rest)[1..] == p[1..] + rest;
      SplitFromSegment(p[1..], rest, cur + [p[0]]);
      assert cur + [p[0]] + p[1..] == cur + p;
    }
  }

  lemma {:induction false} SplitFromJoin(parts: seq<string>)
    requires |parts| > 0 && ValidSegments(parts)
    ensures SplitFrom(Join(parts), "") == parts
    decreases |parts|
  {
    var p := parts[0];
    assert ValidSegment(p);
    if |parts| == 1 {
      SplitFromSegment(p, "", "");
      assert p + "" == p;
      assert "" + p == p;
    } else {
      var tail := [Separator] + Join(parts[1..]);
      assert Join(parts) == p + tail;
      SplitFromSegment(p, tail, "");
      assert "" + p == p;
      assert tail[0] == Separator && tail[1..] == Join(parts[1..]);
      assert SplitFrom(tail, p) == [p] + SplitFrom(Join(parts[1..]), "");
      assert ValidSegments(parts[1..]) by {
        forall i | 0 <= i < |parts[1..]| ensures ValidSegment(parts[1..][i]) {
          assert parts[1..][i] == parts[i + 1];
        }
      }
      SplitFromJoin(parts[1..]);
      assert parts == [p] + parts[1..];
    }
  }

  /** Splitting a joined name gives back exactly the segments that were joined. */
  lemma SplitJoin(parts: seq<string>)
    requires ValidSegments(parts)
    ensures Split(Join(parts)) == parts
    ensures NoEmptySegments(Join(parts))
  {
    if |parts| > 0 {
      assert ValidSegment(parts[0]);
      assert |Join(parts)| >= |parts[0]| > 0 by {
        if |parts| > 1 { assert Join(parts) == parts[0] + ([Separator] + Join(parts[1..])); }
      }
      SplitFromJoin(parts);
    }
  }

  /** Joining the segments of a name with no empty segment gives the name back. */
  lemma {:induction false} JoinSplitFrom(s: string, cur: string)
    requires Separator !in cur
    requires forall i :: 0 <= i < |SplitFrom(s, cur)| ==> SplitFrom(s, cur)[i] != ""
    ensures Join(SplitFrom(s, cur)) == cur + s
    decreases |s|
  {
    if |s| == 0 {
      assert cur + s == cur;
    } else if s[0] == Separator {
      var rest := SplitFrom(s[1..], "");
      assert SplitFrom(s, cur) == [cur] + rest;
      assert |rest| > 0 by { SplitFromNonEmpty(s[1..], ""); }
      assert forall i :: 0 <= i < |rest| ==> rest[i] == SplitFrom(s, cur)[i + 1];
      JoinSplitFrom(s[1..], "");
      assert ([cur] + rest)[1..] == rest;
      assert cur + s == cur + [Separator] + ("" + s[1..]);
    } else {
      assert Separator !in cur + [s[0]];
      assert SplitFrom(s, cur) == SplitFrom(s[1..], cur + [s[0]]);
      JoinSplitFrom(s[1..], cur + [s[0]]);
      assert cur + [s[0]] + s[1..] == cur + s;
    }
  }

  lemma {:induction false} SplitFromNonEmpty(s: string, cur: string)
    ensures |SplitFrom(s, cur)| > 0
    decreases |s|
  {
    if |s| > 0 && s[0] != Separator {
      SplitFromNonEmpty(s[1..], cur + [s[0]]);
    }
  }

  /** A name without empty segments is the join of its segments. */
  lemma JoinSplit(s: string)
    requires NoEmptySegments(s)
    ensures Join(Split(s)) == s
  {
    if s != "" {
      assert Split(s) == SplitFrom(s, "");
      JoinSplitFrom(s, "");
      assert "" + s == s;
    }
  }
}
