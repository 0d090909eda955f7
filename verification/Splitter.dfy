/** router.py: splitting long content and merging the results. */
module Splitter {
  import opened Prelude

  /* ---- The string operations the router uses ---- */

  lemma SliceOfTail(s: string, from: nat, to: nat)
    requires from <= to < |s|
    ensures s[1..][from..to] == s[from + 1..to + 1]
  {
  }

  /** s.find(sep), or |s| when there is none. */
  function Find(s: string, sep: string): (k: nat)
    ensures k <= |s|
    ensures k < |s| ==> k + |sep| <= |s| && s[k..k + |sep|] == sep
  {
    if s == [] then 0
    else if |sep| <= |s| && s[..|sep|] == sep then 0
    else
      var k := Find(s[1..], sep);
      assert k < |s| - 1 ==> s[k + 1..k + 1 + |sep|] == sep by {
        if k < |s| - 1 {
          SliceOfTail(s, k, k + |sep|);
        }
      }
      k + 1
  }

  /** s.split(sep) */
  function SplitOn(s: string, sep: string): (parts: seq<string>)
    requires sep != ""
    ensures parts != []
    decreases |s|
  {
    var k := Find(s, sep);
    if k == |s| then [s] else [s[..k]] + SplitOn(s[k + |sep|..], sep)
  }

  /** sep.join(parts) */
  function Join(parts: seq<string>, sep: string): string {
    if parts == [] then ""
    else if |parts| == 1 then parts[0]
    else parts[0] + sep + Join(parts[1..], sep)
  }

  /** s.replace(before, after) */
  function Replace(s: string, before: string, after: string): string
    requires before != ""
    decreases |s|
  {
    var k := Find(s, before);
    if k == |s| then s else s[..k] + after + Replace(s[k + |before|..], before, after)
  }

  predicate IsSpace(c: char) {
    var n := c as int;
    || 9 <= n <= 13 || 28 <= n <= 32 || n == 0x85 || n == 0xa0 || n == 0x1680
    || 0x2000 <= n <= 0x200a || n == 0x2028 || n == 0x2029 || n == 0x202f || n == 0x205f
    || n == 0x3000
  }

  function StripLeft(s: string): string {
    if s != [] && IsSpace(s[0]) then StripLeft(s[1..]) else s
  }

  function StripRight(s: string): string {
    if s != [] && IsSpace(s[|s| - 1]) then StripRight(s[..|s| - 1]) else s
  }

  /** s.strip() */
  function Strip(s: string): string {
    StripRight(StripLeft(s))
  }

  function Stripped(parts: seq<string>): seq<string> {
    if parts == [] then [] else [Strip(parts[0])] + Stripped(parts[1..])
  }

  /** merge_results */
  function MergeResults(results: seq<string>): string {
    Join(Stripped(results), "\n\n")
  }

  /** The characters of `s` that are not white space, in order. */
  function NonSpace(s: string): string {
    if s == [] then [] else (if IsSpace(s[0]) then [] else [s[0]]) + NonSpace(s[1..])
  }

  /** `s` with every newline turned into a space. */
  function SpacesForNewlines(s: string): string {
    if s == [] then [] else [if s[0] == '\n' then ' ' else s[0]] + SpacesForNewlines(s[1..])
  }

  lemma OneCharacter(c: char)
    ensures NonSpace([c]) == if IsSpace(c) then "" else [c]
    ensures SpacesForNewlines([c]) == [if c == '\n' then ' ' else c]
  {
  }

  lemma {:induction false} NonSpaceConcat(a: string, b: string)
    ensures NonSpace(a + b) == NonSpace(a) + NonSpace(b)
  {
    if a == [] {
      assert a + b == b;
    } else {
      assert (a + b)[1..] == a[1..] + b;
      NonSpaceConcat(a[1..], b);
    }
  }

  lemma {:induction false} NewlinesConcat(a: string, b: string)
    ensures SpacesForNewlines(a + b) == SpacesForNewlines(a) + SpacesForNewlines(b)
  {
    if a == [] {
      assert a + b == b;
    } else {
      assert (a + b)[1..] == a[1..] + b;
      NewlinesConcat(a[1..], b);
    }
  }

  lemma {:induction false} NewlinesKeepText(s: string)
    ensures NonSpace(SpacesForNewlines(s)) == NonSpace(s)
  {
    if s != [] {
      NewlinesKeepText(s[1..]);
    }
  }

  lemma {:induction false} StripKeepsText(s: string)
    ensures NonSpace(StripLeft(s)) == NonSpace(s) && NonSpace(StripRight(s)) == NonSpace(s)
    decreases |s|
  {
    if s != [] {
      StripKeepsText(s[1..]);
      StripKeepsText(s[..|s| - 1]);
      assert s == s[..|s| - 1] + [s[|s| - 1]];
      NonSpaceConcat(s[..|s| - 1], [s[|s| - 1]]);
    }
  }

  lemma {:induction false} JoinedText(parts: seq<string>, sep: string)
    requires NonSpace(sep) == ""
    ensures NonSpace(Join(parts, sep)) == NonSpace(Concat(parts))
  {
    if |parts| == 1 {
      assert Concat(parts) == parts[0];
    } else if |parts| > 1 {
      JoinedText(parts[1..], sep);
      NonSpaceConcat(parts[0] + sep, Join(parts[1..], sep));
      NonSpaceConcat(parts[0], sep);
      NonSpaceConcat(parts[0], Concat(parts[1..]));
    }
  }

  lemma {:induction false} StrippedText(parts: seq<string>)
    ensures NonSpace(Concat(Stripped(parts))) == NonSpace(Concat(parts))
  {
    if parts != [] {
      StrippedText(parts[1..]);
      StripKeepsText(parts[0]);
      StripKeepsText(StripLeft(parts[0]));
      NonSpaceConcat(parts[0], Concat(parts[1..]));
      NonSpaceConcat(Strip(parts[0]), Concat(Stripped(parts[1..])));
    }
  }

  /** Merging adds and removes white space only. */
  lemma MergedText(parts: seq<string>)
    ensures NonSpace(MergeResults(parts)) == NonSpace(Concat(parts))
  {
    assert NonSpace("\n\n") == "";
    JoinedText(Stripped(parts), "\n\n");
    StrippedText(parts);
  }

  ghost predicate AllSpace(s: string) {
    forall i :: 0 <= i < |s| ==> IsSpace(s[i])
  }

  lemma {:induction false} StripLeftIs(s: string) returns (gone: string)
    ensures s == gone + StripLeft(s) && AllSpace(gone)
    ensures StripLeft(s) != "" ==> !IsSpace(StripLeft(s)[0])
  {
    if s != [] && IsSpace(s[0]) {
      gone := StripLeftIs(s[1..]);
      gone := [s[0]] + gone;
    } else {
      gone := "";
    }
  }

  lemma {:induction false} StripRightIs(s: string) returns (gone: string)
    ensures s == StripRight(s) + gone && AllSpace(gone)
    ensures StripRight(s) != "" ==> !IsSpace(StripRight(s)[|StripRight(s)| - 1])
  {
    if s != [] && IsSpace(s[|s| - 1]) {
      var before := StripRightIs(s[..|s| - 1]);
      gone := before + [s[|s| - 1]];
      assert s == s[..|s| - 1] + [s[|s| - 1]] == StripRight(s) + gone;
    } else {
      gone := "";
    }
  }

  /** Stripping takes white space off both ends, and all of it. */
  lemma StripExactly(s: string) returns (a: string, b: string)
    ensures s == a + Strip(s) + b && AllSpace(a) && AllSpace(b)
    ensures Strip(s) != "" ==> !IsSpace(Strip(s)[0]) && !IsSpace(Strip(s)[|Strip(s)| - 1])
  {
    a := StripLeftIs(s);
    b := StripRightIs(StripLeft(s));
    assert Strip(s) != "" ==> Strip(s)[0] == StripLeft(s)[0];
  }

  lemma CutAround(s: string, k: nat, sep: string)
    requires k + |sep| <= |s| && s[k..k + |sep|] == sep
    ensures s == s[..k] + sep + s[k + |sep|..]
  {
    assert s == s[..k] + s[k..k + |sep|] + s[k + |sep|..];
  }

  /** One step of a split that finds its separator. */
  lemma SplitStep(s: string, sep: string)
    requires sep != "" && Find(s, sep) < |s|
    ensures var k := Find(s, sep); var rest := s[k + |sep|..];
            SplitOn(s, sep) == [s[..k]] + SplitOn(rest, sep) && s == s[..k] + sep + rest
  {
    CutAround(s, Find(s, sep), sep);
  }

  lemma JoinCons(part: string, parts: seq<string>, sep: string)
    requires parts != []
    ensures Join([part] + parts, sep) == part + sep + Join(parts, sep)
  {
    assert ([part] + parts)[1..] == parts;
  }

  lemma {:induction false} JoinUndoesSplit(s: string, sep: string)
    requires sep != ""
    ensures Join(SplitOn(s, sep), sep) == s
    decreases |s|
  {
    var k := Find(s, sep);
    if k < |s| {
      var rest := s[k + |sep|..];
      SplitStep(s, sep);
      JoinUndoesSplit(rest, sep);
      JoinCons(s[..k], SplitOn(rest, sep), sep);
    }
  }

  /* ---- Find, split and replace, exactly ---- */

  predicate OccursAt(s: string, sep: string, k: nat) {
    k + |sep| <= |s| && s[k..k + |sep|] == sep
  }

  /** No occurrence starts before the one that is found, not even one that overlaps it; none at all
      when none is found. */
  lemma {:induction false} FindIsFirst(s: string, sep: string, k: nat)
    requires k < Find(s, sep)
    ensures !(k + |sep| <= |s| && s[k..k + |sep|] == sep)
    decreases |s|
  {
    if k > 0 {
      FindIsFirst(s[1..], sep, k - 1);
      if k + |sep| <= |s| {
        SliceOfTail(s, k - 1, k - 1 + |sep|);
      }
    }
  }

  ghost predicate NoneBefore(s: string, sep: string, end: nat) {
    forall k: nat :: k < end ==> !OccursAt(s, sep, k)
  }

  lemma NoneBeforeFind(s: string, sep: string)
    ensures NoneBefore(s, sep, Find(s, sep))
  {
    forall k: nat | k < Find(s, sep)
      ensures !OccursAt(s, sep, k)
    {
      FindIsFirst(s, sep, k);
    }
  }

  /** No separator starts inside a part, reading the part together with the separator after it. */
  ghost predicate LeftToRight(parts: seq<string>, sep: string) {
    if |parts| <= 1 then parts != [] && NoneBefore(parts[0], sep, |parts[0]|)
    else NoneBefore(parts[0] + sep, sep, |parts[0]|) && LeftToRight(parts[1..], sep)
  }

  lemma PrefixOccurrence(a: string, b: string, sep: string, k: nat)
    requires k + |sep| <= |a|
    ensures OccursAt(a + b, sep, k) <==> OccursAt(a, sep, k)
  {
    assert (a + b)[k..k + |sep|] == a[k..k + |sep|];
  }

  lemma NoneBeforeIn(first: string, sep: string, rest: string)
    ensures NoneBefore(first + sep + rest, sep, |first|) <==> NoneBefore(first + sep, sep, |first|)
  {
    forall k: nat | k < |first|
      ensures OccursAt(first + sep + rest, sep, k) <==> OccursAt(first + sep, sep, k)
    {
      PrefixOccurrence(first + sep, rest, sep, k);
    }
  }

  /** Where the first separator is found in what parts join to. */
  lemma FoundAfterFirst(first: string, sep: string, rest: string)
    requires sep != "" && NoneBefore(first + sep, sep, |first|)
    ensures Find(first + sep + rest, sep) == |first|
  {
    var s := first + sep + rest;
    NoneBeforeIn(first, sep, rest);
    NoneBeforeFind(s, sep);
    assert s[|first|..|first| + |sep|] == sep;
    assert OccursAt(s, sep, |first|);
    assert Find(s, sep) < |first| ==> OccursAt(s, sep, Find(s, sep));
  }

  lemma {:induction false} SplitIsLeftToRight(s: string, sep: string)
    requires sep != ""
    ensures LeftToRight(SplitOn(s, sep), sep)
    decreases |s|
  {
    var k := Find(s, sep);
    NoneBeforeFind(s, sep);
    if k < |s| {
      var rest := s[k + |sep|..];
      SplitStep(s, sep);
      SplitIsLeftToRight(rest, sep);
      NoneBeforeIn(s[..k], sep, rest);
      assert ([s[..k]] + SplitOn(rest, sep))[1..] == SplitOn(rest, sep);
    }
  }

  lemma SplitAfterFirst(first: string, sep: string, rest: string)
    requires sep != "" && NoneBefore(first + sep, sep, |first|)
    ensures SplitOn(first + sep + rest, sep) == [first] + SplitOn(rest, sep)
  {
    var s := first + sep + rest;
    FoundAfterFirst(first, sep, rest);
    assert s[..|first|] == first && s[|first| + |sep|..] == rest;
  }

  lemma {:induction false} PartsAreTheSplit(parts: seq<string>, sep: string)
    requires sep != "" && LeftToRight(parts, sep)
    ensures SplitOn(Join(parts, sep), sep) == parts
    decreases |parts|
  {
    var s := Join(parts, sep);
    if |parts| == 1 {
      assert Find(s, sep) < |s| ==> OccursAt(s, sep, Find(s, sep));
    } else {
      PartsAreTheSplit(parts[1..], sep);
      SplitAfterFirst(parts[0], sep, Join(parts[1..], sep));
    }
  }

  /** Splitting, exactly: the parts that join to the text with every separator taken as early as
      possible. */
  lemma SplitExactly(s: string, sep: string, parts: seq<string>)
    requires sep != ""
    ensures SplitOn(s, sep) == parts <==> Join(parts, sep) == s && LeftToRight(parts, sep)
  {
    JoinUndoesSplit(s, sep);
    SplitIsLeftToRight(s, sep);
    if Join(parts, sep) == s && LeftToRight(parts, sep) {
      PartsAreTheSplit(parts, sep);
    }
  }

  lemma {:induction false} NoSeparatorInside(parts: seq<string>, sep: string, i: nat, k: nat)
    requires LeftToRight(parts, sep) && sep != "" && i < |parts|
    ensures !OccursAt(parts[i], sep, k)
  {
    if i > 0 {
      NoSeparatorInside(parts[1..], sep, i - 1, k);
    } else if |parts| > 1 && k + |sep| <= |parts[0]| {
      PrefixOccurrence(parts[0], sep, sep, k);
    }
  }

  /** No part contains the separator. */
  lemma PartsHaveNoSeparator(s: string, sep: string, i: nat, k: nat)
    requires sep != "" && i < |SplitOn(s, sep)|
    ensures var part := SplitOn(s, sep)[i]; !(k + |sep| <= |part| && part[k..k + |sep|] == sep)
  {
    SplitIsLeftToRight(s, sep);
    NoSeparatorInside(SplitOn(s, sep), sep, i, k);
  }

  /** Replacing goes by the parts between the occurrences that splitting takes. */
  lemma {:induction false} ReplaceJoinsParts(s: string, before: string, after: string)
    requires before != ""
    ensures Replace(s, before, after) == Join(SplitOn(s, before), after)
    decreases |s|
  {
    var k := Find(s, before);
    if k < |s| {
      var rest := s[k + |before|..];
      ReplaceJoinsParts(rest, before, after);
      SplitStep(s, before);
      JoinCons(s[..k], SplitOn(rest, before), after);
    }
  }

  lemma {:induction false} BeforeFind(s: string, c: char)
    ensures c !in s[..Find(s, [c])]
  {
    if s != [] && s[0] != c {
      BeforeFind(s[1..], c);
      assert s[..Find(s, [c])] == [s[0]] + s[1..][..Find(s[1..], [c])];
    }
  }

  lemma {:induction false} NoNewlineUnchanged(s: string)
    requires '\n' !in s
    ensures SpacesForNewlines(s) == s
  {
    if s != [] {
      NoNewlineUnchanged(s[1..]);
    }
  }

  lemma FirstLine(first: string, rest: string)
    requires '\n' !in first
    ensures SpacesForNewlines(first + "\n" + rest) == first + " " + SpacesForNewlines(rest)
  {
    NewlinesConcat(first + "\n", rest);
    NewlinesConcat(first, "\n");
    NoNewlineUnchanged(first);
    assert SpacesForNewlines("\n") == " ";
  }

  /** Joining lines with spaces. */
  lemma {:induction false} JoinLines(s: string)
    ensures Join(SplitOn(s, "\n"), " ") == SpacesForNewlines(s)
    decreases |s|
  {
    var k := Find(s, "\n");
    BeforeFind(s, '\n');
    if k == |s| {
      assert s[..k] == s;
      NoNewlineUnchanged(s);
    } else {
      var rest := s[k + 1..];
      SplitStep(s, "\n");
      JoinLines(rest);
      JoinCons(s[..k], SplitOn(rest, "\n"), " ");
      FirstLine(s[..k], rest);
    }
  }

  lemma SameLines(first: string, a: string, b: string)
    requires SpacesForNewlines(a) == SpacesForNewlines(b)
    ensures SpacesForNewlines(first + ". " + a) == SpacesForNewlines(first + ".\n" + b)
  {
    NewlinesConcat(first + ". ", a);
    NewlinesConcat(first, ". ");
    NewlinesConcat(first + ".\n", b);
    NewlinesConcat(first, ".\n");
    assert SpacesForNewlines(". ") == ". " == SpacesForNewlines(".\n");
  }

  /** Breaking lines after sentences only replaces spaces. */
  lemma {:induction false} BreakSentences(s: string)
    ensures SpacesForNewlines(Replace(s, ". ", ".\n")) == SpacesForNewlines(s)
    decreases |s|
  {
    var k := Find(s, ". ");
    if k < |s| {
      var rest := s[k + 2..];
      BreakSentences(rest);
      CutAround(s, k, ". ");
      SameLines(s[..k], rest, Replace(rest, ". ", ".\n"));
    }
  }

  /* ---- merge_results ---- */

  lemma {:induction false} StrippedAre(results: seq<string>)
    ensures |Stripped(results)| == |results|
    ensures forall i :: 0 <= i < |results| ==> Stripped(results)[i] == Strip(results[i])
  {
    if results != [] {
      StrippedAre(results[1..]);
    }
  }

  /** A stripped text without a blank line has none together with the separator after it either. */
  lemma NoEarlySeparator(part: string)
    requires part != "" ==> !IsSpace(part[|part| - 1])
    requires NoneBefore(part, "\n\n", |part|)
    ensures NoneBefore(part + "\n\n", "\n\n", |part|)
  {
    forall k: nat | k < |part|
      ensures !OccursAt(part + "\n\n", "\n\n", k)
    {
      if k + 2 <= |part| {
        PrefixOccurrence(part, "\n\n", "\n\n", k);
      } else {
        assert (part + "\n\n")[k] == part[k] != '\n';
      }
    }
  }

  lemma {:induction false} StrippedSplit(results: seq<string>)
    requires results != []
    requires forall i :: 0 <= i < |results| ==>
               NoneBefore(Strip(results[i]), "\n\n", |Strip(results[i])|)
    ensures LeftToRight(Stripped(results), "\n\n")
  {
    if |results| > 1 {
      var _, _ := StripExactly(results[0]);
      NoEarlySeparator(Strip(results[0]));
      StrippedSplit(results[1..]);
    }
  }

  lemma BlankLineIsLost(results: seq<string>, i: nat)
    requires i < |results| && SplitOn(MergeResults(results), "\n\n") == Stripped(results)
    ensures NoneBefore(Strip(results[i]), "\n\n", |Strip(results[i])|)
  {
    StrippedAre(results);
    SplitIsLeftToRight(MergeResults(results), "\n\n");
    forall k: nat | k < |Strip(results[i])|
      ensures !OccursAt(Strip(results[i]), "\n\n", k)
    {
      NoSeparatorInside(Stripped(results), "\n\n", i, k);
    }
  }

  /** Merging keeps the answers apart: splitting at blank lines gives the stripped answers back exactly
      when none of them holds a blank line itself. */
  lemma MergeSplitsBack(results: seq<string>)
    requires results != []
    ensures SplitOn(MergeResults(results), "\n\n") == Stripped(results) <==>
            forall i :: 0 <= i < |results| ==>
              NoneBefore(Strip(results[i]), "\n\n", |Strip(results[i])|)
  {
    if forall i :: 0 <= i < |results| ==> NoneBefore(Strip(results[i]), "\n\n", |Strip(results[i])|) {
      StrippedSplit(results);
      PartsAreTheSplit(Stripped(results), "\n\n");
    }
    if SplitOn(MergeResults(results), "\n\n") == Stripped(results) {
      forall i | 0 <= i < |results|
        ensures NoneBefore(Strip(results[i]), "\n\n", |Strip(results[i])|)
      {
        BlankLineIsLost(results, i);
      }
    }
  }

  /* ---- split_content ---- */

  /** Where chunk i starts among `total` items cut into n chunks; chunk n would start at the end. */
  function Start(i: nat, n: nat, total: nat): nat
    requires n > 0
  {
    if i < n then i * (total / n) else total
  }

  lemma Positions(i: nat, n: nat, total: nat)
    requires i < n
    ensures Start(i, n, total) <= Start(i + 1, n, total) <= total
    ensures total >= n ==> Start(i, n, total) < Start(i + 1, n, total)
    ensures i < n - 1 ==> Start(i + 1, n, total) == i * (total / n) + total / n
  {
    var size := total / n;
    assert total == n * size + total % n;
    assert (i + 1) * size == i * size + size;
    Scale(i + 1, n, size);
    if total >= n {
      AtLeastOne(total, n);
    }
  }

  lemma AtLeastOne(total: nat, n: nat)
    requires total >= n > 0
    ensures total / n >= 1
  {
  }

  /** Chunk i of the items: |items| / n of them, the last chunk taking the rest. */
  function Group<T>(items: seq<T>, n: nat, i: nat): seq<T>
    requires i < n
  {
    Positions(i, n, |items|);
    items[Start(i, n, |items|)..Start(i + 1, n, |items|)]
  }

  lemma GroupIs<T>(items: seq<T>, n: nat, i: nat)
    requires i < n
    ensures var size := |items| / n;
            var start := i * size; var end := if i < n - 1 then start + size else |items|;
            0 <= start <= end <= |items| && items[start..end] == Group(items, n, i)
  {
    Positions(i, n, |items|);
  }

  lemma {:induction false} JoinAppend(parts: seq<string>, last: string, sep: string)
    requires parts != []
    ensures Join(parts + [last], sep) == Join(parts, sep) + sep + last
  {
    if |parts| > 1 {
      assert (parts + [last])[1..] == parts[1..] + [last];
      JoinAppend(parts[1..], last, sep);
      assert Join(parts + [last], sep) == parts[0] + sep + (Join(parts[1..], sep) + sep + last);
      assert Join(parts, sep) + sep + last == parts[0] + sep + (Join(parts[1..], sep) + sep + last);
    } else {
      assert (parts + [last])[1..] == [last];
    }
  }

  lemma {:induction false} JoinSplitsAnywhere(a: seq<string>, b: seq<string>, sep: string)
    requires a != [] && b != []
    ensures Join(a + b, sep) == Join(a, sep) + sep + Join(b, sep)
  {
    assert (a + b)[1..] == a[1..] + b;
    if |a| > 1 {
      JoinSplitsAnywhere(a[1..], b, sep);
      assert Join(a + b, sep) == a[0] + sep + (Join(a[1..], sep) + sep + Join(b, sep));
      assert Join(a, sep) + sep + Join(b, sep) == a[0] + sep + (Join(a[1..], sep) + sep + Join(b, sep));
    } else {
      assert a[1..] + b == b;
    }
  }

  /** The first chunks, each its group of pieces joined. */
  predicate AreGroups(chunks: seq<string>, pieces: seq<string>, n: nat, sep: string) {
    |chunks| <= n && forall i :: 0 <= i < |chunks| ==> chunks[i] == Join(Group(pieces, n, i), sep)
  }

  lemma NextIsGroup(chunks: seq<string>, pieces: seq<string>, n: nat, sep: string)
    requires |chunks| < n && AreGroups(chunks, pieces, n, sep)
    ensures AreGroups(chunks + [Join(Group(pieces, n, |chunks|), sep)], pieces, n, sep)
  {
  }

  /** With one more chunk the chunks join to what the pieces up to its end join to. */
  lemma NextGroup(pieces: seq<string>, n: nat, i: nat, chunks: seq<string>, sep: string)
    requires i < n <= |pieces| && |chunks| == i
    requires i > 0 ==> Start(i, n, |pieces|) <= |pieces|
                       && Join(chunks, sep) == Join(pieces[..Start(i, n, |pieces|)], sep)
    ensures 0 < Start(i + 1, n, |pieces|) <= |pieces|
    ensures Join(chunks + [Join(Group(pieces, n, i), sep)], sep)
            == Join(pieces[..Start(i + 1, n, |pieces|)], sep)
  {
    Positions(i, n, |pieces|);
    var start, end := Start(i, n, |pieces|), Start(i + 1, n, |pieces|);
    assert pieces[..end] == pieces[..start] + pieces[start..end];
    if i > 0 {
      Positions(i - 1, n, |pieces|);
      JoinAppend(chunks, Join(pieces[start..end], sep), sep);
      JoinSplitsAnywhere(pieces[..start], pieces[start..end], sep);
    } else {
      assert pieces[..start] + pieces[start..end] == pieces[start..end];
    }
  }

  /** The first i groups, joined. */
  function JoinedGroups(pieces: seq<string>, n: nat, sep: string, i: nat): seq<string>
    requires i <= n
  {
    if i == 0 then [] else JoinedGroups(pieces, n, sep, i - 1) + [Join(Group(pieces, n, i - 1), sep)]
  }

  lemma {:induction false} JoinedGroupsAre(pieces: seq<string>, n: nat, sep: string, i: nat)
    requires i <= n <= |pieces|
    ensures |JoinedGroups(pieces, n, sep, i)| == i
    ensures AreGroups(JoinedGroups(pieces, n, sep, i), pieces, n, sep)
    ensures i > 0 ==> Start(i, n, |pieces|) <= |pieces|
                      && Join(JoinedGroups(pieces, n, sep, i), sep)
                         == Join(pieces[..Start(i, n, |pieces|)], sep)
  {
    if i > 0 {
      JoinedGroupsAre(pieces, n, sep, i - 1);
      NextGroup(pieces, n, i - 1, JoinedGroups(pieces, n, sep, i - 1), sep);
      NextIsGroup(JoinedGroups(pieces, n, sep, i - 1), pieces, n, sep);
    }
  }

  /** Join consecutive groups of pieces into n chunks. */
  method JoinGroups(pieces: seq<string>, n: nat, sep: string) returns (chunks: seq<string>)
    requires 1 <= n <= |pieces|
    ensures |chunks| == n && AreGroups(chunks, pieces, n, sep)
    ensures Join(chunks, sep) == Join(pieces, sep)
  {
    var size := |pieces| / n;
    chunks := [];
    var i := 0;
    while i < n
      invariant i <= n && chunks == JoinedGroups(pieces, n, sep, i)
    {
      GroupIs(pieces, n, i);
      var start := i * size;
      var end := if i < n - 1 then start + size else |pieces|;
      chunks := chunks + [Join(pieces[start..end], sep)];
      i := i + 1;
    }
    JoinedGroupsAre(pieces, n, sep, n);
    assert pieces[..|pieces|] == pieces;
  }

  /** Cut `content` into n consecutive chunks of characters. */
  method CutCharacters(content: string, n: nat) returns (chunks: seq<string>)
    requires n >= 1
    ensures |chunks| == n && Concat(chunks) == content
    ensures forall i :: 0 <= i < n ==> chunks[i] == Group(content, n, i)
  {
    var size := |content| / n;
    chunks := [];
    var i := 0;
    while i < n
      invariant i <= n && |chunks| == i && Start(i, n, |content|) <= |content|
      invariant Concat(chunks) == content[..Start(i, n, |content|)]
      invariant forall j :: 0 <= j < i ==> chunks[j] == Group(content, n, j)
    {
      Positions(i, n, |content|);
      GroupIs(content, n, i);
      var start := i * size;
      var end := if i < n - 1 then start + size else |content|;
      ConcatAppend(chunks, [content[start..end]]);
      assert Concat([content[start..end]]) == content[start..end];
      assert content[..end] == content[..start] + content[start..end];
      chunks := chunks + [content[start..end]];
      i := i + 1;
    }
    assert content[..|content|] == content;
  }

  /** What split_content makes of `content`: n groups of its paragraphs, else of its sentences, else of
      its characters; the branch's own separator rejoins them, and merging them keeps the text. */
  ghost predicate SplitsInto(content: string, n: nat, chunks: seq<string>) {
    var paragraphs := SplitOn(content, "\n\n");
    var sentences := SplitOn(Replace(content, ". ", ".\n"), "\n");
    && |chunks| == n && NonSpace(MergeResults(chunks)) == NonSpace(content)
    && if |paragraphs| >= n then
         Join(chunks, "\n\n") == content && AreGroups(chunks, paragraphs, n, "\n\n")
       else if |sentences| >= n then
         Join(chunks, " ") == SpacesForNewlines(content) && AreGroups(chunks, sentences, n, " ")
       else
         && Concat(chunks) == content
         && forall i :: 0 <= i < n ==> chunks[i] == Group(content, n, i)
  }

  /** Content of exactly n paragraphs is split into them. */
  lemma ParagraphsAreChunks(content: string, n: nat, chunks: seq<string>)
    requires n >= 1 && SplitsInto(content, n, chunks) && |SplitOn(content, "\n\n")| == n
    ensures chunks == SplitOn(content, "\n\n")
  {
    var paragraphs := SplitOn(content, "\n\n");
    forall i | 0 <= i < n
      ensures chunks[i] == paragraphs[i]
    {
      GroupIs(paragraphs, n, i);
      assert n / n == 1 && Group(paragraphs, n, i) == [paragraphs[i]];
    }
  }

  /** split_content */
  method SplitContent(content: string, n: nat) returns (chunks: seq<string>)
    requires n >= 1
    ensures SplitsInto(content, n, chunks)
  {
    var paragraphs := SplitOn(content, "\n\n");
    var lines := Replace(content, ". ", ".\n");
    var sentences := SplitOn(lines, "\n");
    assert NonSpace("\n\n") == "" && NonSpace(" ") == "";
    if |paragraphs| >= n {
      chunks := JoinGroups(paragraphs, n, "\n\n");
      JoinUndoesSplit(content, "\n\n");
      JoinedText(chunks, "\n\n");
    } else if |sentences| >= n {
      chunks := JoinGroups(sentences, n, " ");
      JoinLines(lines);
      BreakSentences(content);
      JoinedText(chunks, " ");
      NewlinesKeepText(content);
    } else {
      chunks := CutCharacters(content, n);
    }
    MergedText(chunks);
  }
}
