/** The identifier matcher of cf/cf.go: the package-level regular expression
    `service-instance_(.*)` applied with FindStringSubmatch.

    The expression is unanchored, so the match starts at the LEFTMOST
    occurrence of the literal `service-instance_`; the group `(.*)` is greedy,
    and in RE2 syntax `.` matches every character except a newline, so the
    captured instance id runs from just after that occurrence up to the first
    newline or the end of the name. */
module DeploymentName {
  import opened Wrappers

  /** The literal part of the deployment-name pattern. */
  const Prefix: string := "service-instance_"

  /** `Prefix` occurs in `s` starting at index `k`. */
  predicate OccursAt(s: string, k: nat)
  {
    k + |Prefix| <= |s| && s[k..k + |Prefix|] == Prefix
  }

  /** `s` contains `Prefix` somewhere, i.e. the pattern matches `s`. */
  predicate Matches(s: string)
  {
    exists k: nat :: k <= |s| && OccursAt(s, k)
  }

  /** The leftmost occurrence of `Prefix` in `s` at or after `from`. */
  function FindPrefix(s: string, from: nat): (r: Option<nat>)
    requires from <= |s|
    ensures r.Some? ==> from <= r.value && OccursAt(s, r.value)
    ensures r.Some? ==> forall k: nat :: from <= k < r.value ==> !OccursAt(s, k)
    ensures r.None? ==> forall k: nat :: from <= k ==> !OccursAt(s, k)
    decreases |s| - from
  {
    if from + |Prefix| > |s| then None
    else if OccursAt(s, from) then Some(from)
    else FindPrefix(s, from + 1)
  }

  /** What the greedy group `(.*)` captures of `s`: the longest prefix of `s`
      without a newline. */
  function DotStar(s: string): (r: string)
    ensures r <= s
    ensures '\n' !in r
    ensures r == s || s[|r|] == '\n'
  {
    if s == [] || s[0] == '\n' then []
    else [s[0]] + DotStar(s[1..])
  }

  /** `matches[1]` of FindStringSubmatch, or None where the Go code sees a nil
      `matches` (cf/cf.go:63-64, 69). */
  function InstanceId(name: string): (r: Option<string>)
    ensures r.None? <==> !Matches(name)
    ensures r.Some? ==> '\n' !in r.value
    ensures r.Some? ==> exists k: nat :: OccursAt(name, k) && r.value <= name[k + |Prefix|..]
  {
    match FindPrefix(name, 0)
    case None => None
    case Some(k) => Some(DotStar(name[k + |Prefix|..]))
  }

  /** The match starts at the leftmost occurrence of `Prefix`: when the first
      occurrence is at `k`, the id is the greedy capture after it, whatever
      further occurrences follow. */
  lemma LeftmostOccurrenceWins(name: string, k: nat)
    requires OccursAt(name, k)
    requires forall j: nat :: j < k ==> !OccursAt(name, j)
    ensures InstanceId(name) == Some(DotStar(name[k + |Prefix|..]))
  {
    assert FindPrefix(name, 0) == Some(k);
  }

  /** A newline-free text is captured whole by `(.*)`. */
  lemma {:induction false} DotStarOfSingleLine(s: string)
    requires '\n' !in s
    ensures DotStar(s) == s
  {
    if s != [] {
      assert s[0] in s;
      assert forall c :: c in s[1..] ==> c in s;
      DotStarOfSingleLine(s[1..]);
      assert [s[0]] + s[1..] == s;
    }
  }

  /** `(.*)` stops at the first newline: of a newline-free line followed by a
      newline and more text, it captures exactly the line. */
  lemma {:induction false} DotStarStopsAtNewline(line: string, rest: string)
    requires '\n' !in line
    ensures DotStar(line + "\n" + rest) == line
  {
    var s := line + "\n" + rest;
    if line != [] {
      assert line[0] in line && s[0] == line[0];
      assert s[1..] == line[1..] + "\n" + rest;
      assert forall c :: c in line[1..] ==> c in line;
      DotStarStopsAtNewline(line[1..], rest);
      assert [line[0]] + line[1..] == line;
    }
  }

  /** A name that starts with `Prefix` matches there: the id is the greedy
      capture of everything after it. */
  lemma InstanceIdOfPrefixed(tail: string)
    ensures InstanceId(Prefix + tail) == Some(DotStar(tail))
  {
    var name := Prefix + tail;
    assert name[..|Prefix|] == Prefix;
    LeftmostOccurrenceWins(name, 0);
    assert name[|Prefix|..] == tail;
  }

  /** Deployment names built by the convention `service-instance_<id>` give
      back exactly `<id>`, provided the id is a single line. */
  lemma InstanceIdOfConventionalName(id: string)
    requires '\n' !in id
    ensures InstanceId(Prefix + id) == Some(id)
  {
    InstanceIdOfPrefixed(id);
    DotStarOfSingleLine(id);
  }

  /** The capture stops at the first newline after the prefix: text on later
      lines never reaches the instance id. */
  lemma InstanceIdStopsAtNewline(id: string, rest: string)
    requires '\n' !in id
    ensures InstanceId(Prefix + (id + "\n" + rest)) == Some(id)
  {
    InstanceIdOfPrefixed(id + "\n" + rest);
    DotStarStopsAtNewline(id, rest);
  }
}
