// The version normaliser of `set_version_and_build_number`: Ruby's `String#scan` with the
// pattern (\d+\.)(\d+\.)(\*|\d+)(-[^+\s]+)?(\+\S+)? collects the leftmost non-overlapping
// matches, each as the array of its five capture groups (an absent optional group is nil),
// and `Array#join` concatenates all of them, nil giving "".
module Semver {
  import opened Wrappers

  // ---------------------------------------------------------------------------
  // Character classes of the pattern (Ruby's \d and \s are ASCII classes)

  predicate IsDigit(c: char) { '0' <= c <= '9' }

  /** `\s`: space, tab, line feed, vertical tab, form feed, carriage return. */
  predicate IsSpace(c: char)
  {
    c == ' ' || c == '\t' || c == '\n' || c == '\U{0B}' || c == '\U{0C}' || c == '\r'
  }

  /** `[^+\s]`, the characters of a pre-release tag. */
  predicate IsPrereleaseChar(c: char) { c != '+' && !IsSpace(c) }

  /** `\S`, the characters of build metadata. */
  predicate IsNotSpace(c: char) { !IsSpace(c) }

  /** Every character of `s[from..to]` is accepted. */
  predicate Run(s: string, from: nat, to: nat, accept: char -> bool)
  {
    from <= to <= |s| && forall k :: from <= k < to ==> accept(s[k])
  }

  /** The end of the longest run of accepted characters starting at `from` (a greedy `+`/`*`). */
  function RunEnd(s: string, from: nat, accept: char -> bool): (e: nat)
    requires from <= |s|
    ensures Run(s, from, e, accept)
    ensures e < |s| ==> !accept(s[e])
    decreases |s| - from
  {
    if from < |s| && accept(s[from]) then RunEnd(s, from + 1, accept) else from
  }

  // ---------------------------------------------------------------------------
  // One match

  /** Where each capture group of a match ends; an absent optional group ends where the
      previous one does. */
  datatype Bounds = Bounds(majorEnd: nat, minorEnd: nat, patchEnd: nat, prereleaseEnd: nat, buildEnd: nat)

  /** `\d+\.` spans exactly `s[from..to]`. */
  predicate DigitsDot(s: string, from: nat, to: nat)
  {
    from + 2 <= to && Run(s, from, to - 1, IsDigit) && to - 1 < |s| && s[to - 1] == '.'
  }

  /** `(\*|\d+)` spans exactly `s[from..to]`. */
  predicate Patch(s: string, from: nat, to: nat)
  {
    (to == from + 1 && from < |s| && s[from] == '*') || (from < to && Run(s, from, to, IsDigit))
  }

  /** An optional group `(<lead><accept>+)?` spans exactly `s[from..to]`, empty when absent. */
  predicate Optional(s: string, from: nat, to: nat, lead: char, accept: char -> bool)
  {
    to == from || (from + 2 <= to && Run(s, from + 1, to, accept) && s[from] == lead)
  }

  /** The pattern matches `s[start..p.buildEnd]` with its groups ending at the bounds `p`:
      the language of the pattern, stated position by position. */
  predicate Parse(s: string, start: nat, p: Bounds)
  {
    DigitsDot(s, start, p.majorEnd) &&
    DigitsDot(s, p.majorEnd, p.minorEnd) &&
    Patch(s, p.minorEnd, p.patchEnd) &&
    Optional(s, p.patchEnd, p.prereleaseEnd, '-', IsPrereleaseChar) &&
    Optional(s, p.prereleaseEnd, p.buildEnd, '+', IsNotSpace)
  }

  /** Where `(\*|\d+)` ends when matched at `from`: `*` is tried first, then the longest digit
      run; `from` itself when neither matches. */
  function PatchEnd(s: string, from: nat): (e: nat)
    requires from <= |s|
    ensures e == from || Patch(s, from, e)
  {
    if from < |s| && s[from] == '*' then from + 1 else RunEnd(s, from, IsDigit)
  }

  /** Where a greedy optional group `(<lead><accept>+)?` ends when matched at `from`. */
  function OptionalEnd(s: string, from: nat, lead: char, accept: char -> bool): (e: nat)
    requires from <= |s|
    ensures e <= |s| && Optional(s, from, e, lead, accept)
  {
    if from + 1 < |s| && s[from] == lead && accept(s[from + 1]) then RunEnd(s, from + 1, accept) else from
  }

  /** The match Ruby's backtracking matcher finds at `start`: each group in turn as long as
      possible, `*` tried before digits, an optional group taken whenever it can match. */
  function MatchAt(s: string, start: nat): (r: Option<Bounds>)
    requires start <= |s|
    ensures r.Some? ==> Parse(s, start, r.value) && start < r.value.buildEnd <= |s|
  {
    var majorDot := RunEnd(s, start, IsDigit);
    if majorDot == start || majorDot == |s| || s[majorDot] != '.' then None
    else
      var minorDot := RunEnd(s, majorDot + 1, IsDigit);
      if minorDot == majorDot + 1 || minorDot == |s| || s[minorDot] != '.' then None
      else
        var patchEnd := PatchEnd(s, minorDot + 1);
        if patchEnd == minorDot + 1 then None
        else
          var prereleaseEnd := OptionalEnd(s, patchEnd, '-', IsPrereleaseChar);
          var buildEnd := OptionalEnd(s, prereleaseEnd, '+', IsNotSpace);
          Some(Bounds(majorDot + 1, minorDot + 1, patchEnd, prereleaseEnd, buildEnd))
  }

  /** A greedy run reaches at least as far as any run of accepted characters. */
  lemma RunEndReaches(s: string, from: nat, to: nat, accept: char -> bool)
    requires Run(s, from, to, accept)
    ensures to <= RunEnd(s, from, accept)
  {
  }

  /** A run that stops at a rejected character is the greedy run. */
  lemma {:induction false} RunEndExact(s: string, from: nat, to: nat, accept: char -> bool)
    requires Run(s, from, to, accept) && to < |s| && !accept(s[to])
    ensures RunEnd(s, from, accept) == to
    decreases |s| - from
  {
    if from < to {
      RunEndExact(s, from + 1, to, accept);
    }
  }

  /** The patch group is greedy, and it is exactly any patch followed by a '-' or a '+'. */
  lemma PatchEndFacts(s: string, from: nat, to: nat)
    requires Patch(s, from, to) && to <= |s|
    ensures to <= PatchEnd(s, from)
    ensures to < |s| && (s[to] == '-' || s[to] == '+') ==> PatchEnd(s, from) == to
  {
    if !(from < |s| && s[from] == '*') {
      RunEndReaches(s, from, to, IsDigit);
      if to < |s| && (s[to] == '-' || s[to] == '+') {
        RunEndExact(s, from, to, IsDigit);
      }
    }
  }

  /** An optional group is greedy: it reaches at least as far as any match of it, and exactly
      as far when that match is followed by a character it cannot take. */
  lemma OptionalEndFacts(s: string, from: nat, to: nat, lead: char, accept: char -> bool)
    requires Optional(s, from, to, lead, accept) && to <= |s|
    ensures to <= OptionalEnd(s, from, lead, accept)
    ensures to < |s| && !accept(s[to]) && s[to] != lead ==> OptionalEnd(s, from, lead, accept) == to
  {
    if to > from {
      RunEndReaches(s, from + 1, to, accept);
      if to < |s| && !accept(s[to]) {
        RunEndExact(s, from + 1, to, accept);
      }
    }
  }

  /** Any match of the pattern at `start` ends no later than the match `MatchAt` finds: there
      is a match exactly when `MatchAt` finds one, and it is the longest. */
  lemma MatchAtLongest(s: string, start: nat, q: Bounds)
    requires Parse(s, start, q) && q.buildEnd <= |s|
    ensures MatchAt(s, start).Some?
    ensures q.buildEnd <= MatchAt(s, start).value.buildEnd
  {
    assert DigitsDot(s, start, q.majorEnd) && DigitsDot(s, q.majorEnd, q.minorEnd);
    RunEndExact(s, start, q.majorEnd - 1, IsDigit);
    RunEndExact(s, q.majorEnd, q.minorEnd - 1, IsDigit);
    TailLongest(s, q);
    var patchEnd := PatchEnd(s, q.minorEnd);
    var prereleaseEnd := OptionalEnd(s, patchEnd, '-', IsPrereleaseChar);
    assert MatchAt(s, start) ==
      Some(Bounds(q.majorEnd, q.minorEnd, patchEnd, prereleaseEnd, OptionalEnd(s, prereleaseEnd, '+', IsNotSpace)));
  }

  /** The groups after the minor version: the greedy choice reaches at least as far as `q`. */
  lemma TailLongest(s: string, q: Bounds)
    requires Patch(s, q.minorEnd, q.patchEnd)
    requires Optional(s, q.patchEnd, q.prereleaseEnd, '-', IsPrereleaseChar)
    requires Optional(s, q.prereleaseEnd, q.buildEnd, '+', IsNotSpace) && q.buildEnd <= |s|
    ensures q.minorEnd < PatchEnd(s, q.minorEnd)
    ensures q.buildEnd <= OptionalEnd(s, OptionalEnd(s, PatchEnd(s, q.minorEnd), '-', IsPrereleaseChar), '+', IsNotSpace)
  {
    PatchEndFacts(s, q.minorEnd, q.patchEnd);
    var patchEnd := PatchEnd(s, q.minorEnd);
    if q.buildEnd > q.prereleaseEnd {
      // A build group follows: the groups before it end where they end in `q`.
      assert patchEnd == q.patchEnd;
      OptionalEndFacts(s, q.patchEnd, q.prereleaseEnd, '-', IsPrereleaseChar);
      OptionalEndFacts(s, q.prereleaseEnd, q.buildEnd, '+', IsNotSpace);
    } else if q.prereleaseEnd > q.patchEnd {
      assert patchEnd == q.patchEnd;
      OptionalEndFacts(s, q.patchEnd, q.prereleaseEnd, '-', IsPrereleaseChar);
    }
  }

  // ---------------------------------------------------------------------------
  // scan and join

  /** One match of `scan`: where it starts and where its groups end. */
  datatype Hit = Hit(start: nat, bounds: Bounds)

  /** `scan` from position `from`: the leftmost match, then the scan after its end. */
  function ScanFrom(s: string, from: nat): (hits: seq<Hit>)
    requires from <= |s|
    ensures forall h :: h in hits ==> h.start < h.bounds.buildEnd <= |s| && Parse(s, h.start, h.bounds)
    decreases |s| - from
  {
    if from == |s| then []
    else
      match MatchAt(s, from)
      case None => ScanFrom(s, from + 1)
      case Some(p) => [Hit(from, p)] + ScanFrom(s, p.buildEnd)
  }

  /** `hits` are the leftmost non-overlapping matches of the pattern in `s[from..]`: no match
      starts before the first hit, the first hit is the match found at its start, and the
      rest are the leftmost matches after its end. */
  predicate Leftmost(s: string, from: nat, hits: seq<Hit>)
    requires from <= |s|
    decreases |hits|
  {
    if |hits| == 0 then forall k :: from <= k < |s| ==> MatchAt(s, k).None?
    else
      var h := hits[0];
      from <= h.start < h.bounds.buildEnd <= |s| &&
      (forall k :: from <= k < h.start ==> MatchAt(s, k).None?) &&
      MatchAt(s, h.start) == Some(h.bounds) &&
      Leftmost(s, h.bounds.buildEnd, hits[1..])
  }

  /** `scan` finds the leftmost non-overlapping matches. */
  lemma {:induction false} ScanIsLeftmost(s: string, from: nat)
    requires from <= |s|
    ensures Leftmost(s, from, ScanFrom(s, from))
    decreases |s| - from
  {
    if from < |s| {
      match MatchAt(s, from)
      case None =>
        ScanIsLeftmost(s, from + 1);
        LeftmostEarlier(s, from, ScanFrom(s, from + 1));
      case Some(p) =>
        ScanIsLeftmost(s, p.buildEnd);
    }
  }

  /** A position without a match can be added in front of the search. */
  lemma LeftmostEarlier(s: string, from: nat, hits: seq<Hit>)
    requires from < |s| && MatchAt(s, from).None? && Leftmost(s, from + 1, hits)
    ensures Leftmost(s, from, hits)
  {
  }

  /** The leftmost non-overlapping matches are unique: they are what `scan` returns. */
  lemma {:induction false} LeftmostIsScan(s: string, from: nat, hits: seq<Hit>)
    requires from <= |s| && Leftmost(s, from, hits)
    ensures hits == ScanFrom(s, from)
    decreases |s| - from
  {
    if from < |s| {
      if |hits| > 0 && hits[0].start == from {
        LeftmostIsScan(s, hits[0].bounds.buildEnd, hits[1..]);
        assert hits == [hits[0]] + hits[1..];
      } else {
        assert MatchAt(s, from).None?;
        LeftmostIsScan(s, from + 1, hits);
      }
    }
  }

  /** The capture groups of a match, as `scan` returns them (nil for an absent optional group). */
  function Groups(s: string, h: Hit): (groups: seq<Option<string>>)
    requires h.start < h.bounds.buildEnd <= |s| && Parse(s, h.start, h.bounds)
    ensures |groups| == 5 && groups[0].Some? && groups[1].Some? && groups[2].Some?
  {
    var p := h.bounds;
    [Some(s[h.start..p.majorEnd]), Some(s[p.majorEnd..p.minorEnd]), Some(s[p.minorEnd..p.patchEnd]),
     if p.prereleaseEnd == p.patchEnd then None else Some(s[p.patchEnd..p.prereleaseEnd]),
     if p.buildEnd == p.prereleaseEnd then None else Some(s[p.prereleaseEnd..p.buildEnd])]
  }

  /** `Array#join` of one match's groups, nil joining as "". */
  function JoinGroups(groups: seq<Option<string>>): string
  {
    if |groups| == 0 then "" else groups[0].GetOr("") + JoinGroups(groups[1..])
  }

  /** An optional group as a string, nil joining as "". */
  lemma OptionalGroupText(s: string, from: nat, to: nat)
    requires from <= to <= |s|
    ensures (if to == from then None else Some(s[from..to])).GetOr("") == s[from..to]
  {
  }

  /** `join` of five groups. */
  lemma JoinFive(groups: seq<Option<string>>)
    requires |groups| == 5
    ensures JoinGroups(groups) == groups[0].GetOr("") + groups[1].GetOr("") + groups[2].GetOr("") +
                                   groups[3].GetOr("") + groups[4].GetOr("")
  {
    var g := groups;
    assert g[4..][1..] == [];
    assert JoinGroups(g[4..]) == g[4].GetOr("");
    assert g[3..][1..] == g[4..];
    assert JoinGroups(g[3..]) == g[3].GetOr("") + g[4].GetOr("");
    assert g[2..][1..] == g[3..];
    assert JoinGroups(g[2..]) == g[2].GetOr("") + g[3].GetOr("") + g[4].GetOr("");
    assert g[1..][1..] == g[2..];
    assert JoinGroups(g[1..]) == g[1].GetOr("") + g[2].GetOr("") + g[3].GetOr("") + g[4].GetOr("");
  }

  /** The groups of a match tile it: joined they give back the matched text. */
  lemma GroupsCoverMatch(s: string, h: Hit)
    requires h.start < h.bounds.buildEnd <= |s| && Parse(s, h.start, h.bounds)
    ensures JoinGroups(Groups(s, h)) == s[h.start..h.bounds.buildEnd]
  {
    var p := h.bounds;
    JoinFive(Groups(s, h));
    OptionalGroupText(s, p.patchEnd, p.prereleaseEnd);
    OptionalGroupText(s, p.prereleaseEnd, p.buildEnd);
    assert s[h.start..p.majorEnd] + s[p.majorEnd..p.minorEnd] + s[p.minorEnd..p.patchEnd] +
           s[p.patchEnd..p.prereleaseEnd] + s[p.prereleaseEnd..p.buildEnd] == s[h.start..p.buildEnd];
  }

  /** `join` over all matches of the scan. */
  function JoinHits(s: string, hits: seq<Hit>): string
    requires forall h :: h in hits ==> h.start < h.bounds.buildEnd <= |s| && Parse(s, h.start, h.bounds)
  {
    if |hits| == 0 then "" else JoinGroups(Groups(s, hits[0])) + JoinHits(s, hits[1..])
  }

  /** The matched text of every match, in order. */
  function MatchedText(s: string, hits: seq<Hit>): string
    requires forall h :: h in hits ==> h.start < h.bounds.buildEnd <= |s|
  {
    if |hits| == 0 then "" else s[hits[0].start..hits[0].bounds.buildEnd] + MatchedText(s, hits[1..])
  }

  /** The normalised version: `version.scan(pattern).join`. */
  function Normalize(version: string): string
  {
    JoinHits(version, ScanFrom(version, 0))
  }

  /** Joining the groups of every match gives exactly the matched texts, concatenated. */
  lemma {:induction false} JoinHitsIsMatchedText(s: string, hits: seq<Hit>)
    requires forall h :: h in hits ==> h.start < h.bounds.buildEnd <= |s| && Parse(s, h.start, h.bounds)
    ensures JoinHits(s, hits) == MatchedText(s, hits)
  {
    if |hits| > 0 {
      GroupsCoverMatch(s, hits[0]);
      JoinHitsIsMatchedText(s, hits[1..]);
    }
  }

  /** The normalised version is the concatenation of the leftmost non-overlapping matches. */
  lemma NormalizeIsMatchedText(version: string)
    ensures Normalize(version) == MatchedText(version, ScanFrom(version, 0))
  {
    JoinHitsIsMatchedText(version, ScanFrom(version, 0));
  }

  /** A version that the pattern matches as a whole normalises to itself: nothing, build
      metadata included, is stripped. */
  lemma WholeVersionKept(version: string)
    requires MatchAt(version, 0).Some? && MatchAt(version, 0).value.buildEnd == |version|
    ensures Normalize(version) == version
  {
    var p := MatchAt(version, 0).value;
    var hits := ScanFrom(version, 0);
    assert ScanFrom(version, |version|) == [];
    assert hits == [Hit(0, p)];
    JoinHitsIsMatchedText(version, hits);
    assert MatchedText(version, hits) == version[0..|version|] + "";
  }

  // ---------------------------------------------------------------------------
  // Worked examples

  /** Build metadata is kept, not stripped. */
  lemma BuildMetadataKept()
    ensures Normalize("2.5.0-beta+001") == "2.5.0-beta+001"
  {
    var v := "2.5.0-beta+001";
    assert Parse(v, 0, Bounds(2, 4, 5, 10, 14));
    MatchAtLongest(v, 0, Bounds(2, 4, 5, 10, 14));
    WholeVersionKept(v);
  }

  /** A version with two components does not match at all and normalises to "". */
  lemma TwoComponentsDropped()
    ensures Normalize("10.0") == ""
  {
    var v := "10.0";
    assert RunEnd(v, 0, IsDigit) == 2;
    assert RunEnd(v, 1, IsDigit) == 2;
    assert RunEnd(v, 3, IsDigit) == 4;
    assert forall k :: 0 <= k < |v| ==> MatchAt(v, k).None?;
    assert Leftmost(v, 0, []);
    LeftmostIsScan(v, 0, []);
  }

  /** The two matches of "1.2.3 4.5.6", each ended by what follows it. */
  lemma GluedMatches()
    ensures MatchAt("1.2.3 4.5.6", 0) == Some(Bounds(2, 4, 5, 5, 5))
    ensures MatchAt("1.2.3 4.5.6", 6) == Some(Bounds(8, 10, 11, 11, 11))
  {
    var v := "1.2.3 4.5.6";
    RunEndExact(v, 0, 1, IsDigit);
    RunEndExact(v, 2, 3, IsDigit);
    RunEndExact(v, 4, 5, IsDigit);
    RunEndExact(v, 6, 7, IsDigit);
    RunEndExact(v, 8, 9, IsDigit);
  }

  /** Two versions in one string are glued together. */
  lemma TwoVersionsGlued()
    ensures Normalize("1.2.3 4.5.6") == "1.2.34.5.6"
  {
    var v := "1.2.3 4.5.6";
    var first := Hit(0, Bounds(2, 4, 5, 5, 5));
    var second := Hit(6, Bounds(8, 10, 11, 11, 11));
    GluedMatches();
    assert MatchAt(v, 5).None?;
    assert Leftmost(v, 11, []);
    assert Leftmost(v, 5, [second]);
    assert Leftmost(v, 0, [first, second]);
    LeftmostIsScan(v, 0, [first, second]);
    NormalizeIsMatchedText(v);
    assert MatchedText(v, [second]) == v[6..11];
    assert MatchedText(v, [first, second]) == v[0..5] + v[6..11];
  }
}
