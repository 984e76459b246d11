/** The council's peer-ranking logic: anonymous labels for the stage-1 responses, parsing a
    review's final ranking, and aggregating the positions every review gave each model. */
module Ranking {
  import opened Wrappers
  import opened Text
  import opened Turns

  // ---------------------------------------------------------------------------------------
  // Labels

  /** Labels are `"Response " + chr(65 + i)`; beyond this many the character would be a
      surrogate code point, which a Dafny `char` cannot hold. */
  const LabelLimit: nat := 0xD800 - 65

  const LabelPrefix: string := "Response "

  /** The label of the `i`-th stage-1 response: "Response A", "Response B", ... */
  function Label(i: nat): string
    requires i < LabelLimit
  {
    LabelPrefix + [(65 + i) as char]
  }

  /** Different responses get different labels. */
  lemma LabelsDistinct(i: nat, j: nat)
    requires i < LabelLimit && j < LabelLimit
    ensures Label(i) == Label(j) <==> i == j
  {
    if Label(i) == Label(j) {
      assert Label(i)[9] == Label(j)[9];
    }
  }

  /** `label_to_model`: the `i`-th label names the `i`-th stage-1 response's model, and
      there are no other labels. */
  function LabelToModel(s1: seq<ModelResponse>): (m: map<string, string>)
    requires |s1| <= LabelLimit
    ensures forall i :: 0 <= i < |s1| ==> Label(i) in m && m[Label(i)] == s1[i].model
    ensures forall l :: l in m ==> exists i :: 0 <= i < |s1| && l == Label(i)
  {
    LabelsInjective();
    map i | 0 <= i < |s1| :: Label(i) := s1[i].model
  }

  lemma LabelsInjective()
    ensures forall i: nat, j: nat :: i < LabelLimit && j < LabelLimit && Label(i) == Label(j) ==> i == j
  {
    forall i: nat, j: nat | i < LabelLimit && j < LabelLimit && Label(i) == Label(j) ensures i == j {
      LabelsDistinct(i, j);
    }
  }

  // ---------------------------------------------------------------------------------------
  // The regular expressions `Response [A-Z]` and `\d+\.\s*Response [A-Z]`

  predicate IsUpper(c: char) {
    'A' <= c <= 'Z'
  }

  predicate IsDigit(c: char) {
    '0' <= c <= '9'
  }

  /** `Response [A-Z]` matches at `i`. */
  predicate LabelAt(s: string, i: nat) {
    i + 10 <= |s| && OccursAt(s, LabelPrefix, i) && IsUpper(s[i + 9])
  }

  /** `x` is "Response " followed by one upper-case letter. */
  predicate IsLabel(x: string) {
    |x| == 10 && LabelAt(x, 0)
  }

  /** The labels of the first 26 responses are exactly the ones a ranking can name. */
  lemma LabelIsParseable(i: nat)
    requires i < LabelLimit
    ensures IsLabel(Label(i)) <==> i < 26
  {
  }

  /** The text matched at a label occurrence is a label. */
  lemma LabelAtIsLabel(s: string, i: nat)
    requires LabelAt(s, i)
    ensures IsLabel(s[i..i + 10])
  {
    var x := s[i..i + 10];
    forall k | 0 <= k < |LabelPrefix| ensures x[k] == LabelPrefix[k] {
      assert x[k] == s[i + k];
    }
  }

  /** `re.findall(r"Response [A-Z]", s[from..])`: scanning left to right, each match is
      taken and the scan resumes after it. */
  function FindLabels(s: string, from: nat): (r: seq<string>)
    requires from <= |s|
    ensures forall x :: x in r ==> IsLabel(x)
    decreases |s| - from
  {
    if from + 10 > |s| then []
    else if LabelAt(s, from) then
      LabelAtIsLabel(s, from);
      [s[from..from + 10]] + FindLabels(s, from + 10)
    else FindLabels(s, from + 1)
  }

  /** The scan finds something exactly when some label occurs at or after `from`. */
  lemma {:induction false} FindLabelsEmptyIff(s: string, from: nat)
    requires from <= |s|
    ensures FindLabels(s, from) == [] <==> forall k :: from <= k ==> !LabelAt(s, k)
    decreases |s| - from
  {
    if from + 10 <= |s| && !LabelAt(s, from) {
      FindLabelsEmptyIff(s, from + 1);
    }
  }

  /** `ps` are the positions `re.findall` matches at, scanning from `from`, for a pattern
      that matches at `k` up to `ends(k)` when that is some end: no match starts before the
      first one, the first one is a non-empty match, and the rest are those found from its
      end on. */
  ghost predicate Leftmost(ends: nat -> Option<nat>, from: nat, ps: seq<nat>)
    decreases |ps|
  {
    if ps == [] then forall k: nat :: from <= k ==> ends(k).None?
    else
      && from <= ps[0]
      && (forall k: nat :: from <= k < ps[0] ==> ends(k).None?)
      && ends(ps[0]).Some? && ps[0] < ends(ps[0]).value
      && Leftmost(ends, ends(ps[0]).value, ps[1..])
  }

  /** A match at `from` followed by the matches from its end on. */
  lemma LeftmostTake(ends: nat -> Option<nat>, from: nat, rest: seq<nat>)
    requires ends(from).Some? && from < ends(from).value && Leftmost(ends, ends(from).value, rest)
    ensures Leftmost(ends, from, [from] + rest)
  {
    assert ([from] + rest)[1..] == rest;
  }

  /** No match at `from`: the matches are those from the next position on. */
  lemma LeftmostSkip(ends: nat -> Option<nat>, from: nat, ps: seq<nat>)
    requires ends(from).None? && Leftmost(ends, from + 1, ps)
    ensures Leftmost(ends, from, ps)
  {
  }

  /** The matches lie at or after `from`, in increasing order, each one starting at or
      after the end of the one before. */
  lemma {:induction false} LeftmostOrdered(ends: nat -> Option<nat>, from: nat, ps: seq<nat>)
    requires Leftmost(ends, from, ps)
    ensures forall i :: 0 <= i < |ps| ==> from <= ps[i] && ends(ps[i]).Some? && ps[i] < ends(ps[i]).value
    ensures forall i :: 0 <= i < |ps| - 1 ==> ends(ps[i]).value <= ps[i + 1]
    decreases |ps|
  {
    if ps != [] {
      LeftmostOrdered(ends, ends(ps[0]).value, ps[1..]);
      forall i | 0 < i < |ps| ensures ps[i] == ps[1..][i - 1] && from <= ps[i] {
      }
      forall i | 0 < i < |ps| - 1 ensures ends(ps[i]).value <= ps[i + 1] {
        assert ps[i] == ps[1..][i - 1] && ps[i + 1] == ps[1..][i];
      }
    }
  }

  /** `found` holds the texts of the matches at `ps`, in order: each runs from its position
      to the end of its match. */
  ghost predicate MatchTexts(s: string, ends: nat -> Option<nat>, found: seq<string>, ps: seq<nat>) {
    && |found| == |ps|
    && forall i :: 0 <= i < |ps| ==>
         ends(ps[i]).Some? && ps[i] <= ends(ps[i]).value <= |s| && found[i] == s[ps[i]..ends(ps[i]).value]
  }

  /** The text of a match at `from` followed by the texts of the matches after it. */
  lemma MatchTextsTake(s: string, ends: nat -> Option<nat>, from: nat, later: seq<string>, rest: seq<nat>)
    requires ends(from).Some? && from <= ends(from).value <= |s|
    requires MatchTexts(s, ends, later, rest)
    ensures MatchTexts(s, ends, [s[from..ends(from).value]] + later, [from] + rest)
  {
    var found, ps := [s[from..ends(from).value]] + later, [from] + rest;
    forall i | 0 < i < |ps|
      ensures ends(ps[i]).Some? && ps[i] <= ends(ps[i]).value <= |s| && found[i] == s[ps[i]..ends(ps[i]).value]
    {
      assert ps[i] == rest[i - 1] && found[i] == later[i - 1];
    }
  }

  /** A match at `k` is found unless an earlier match, at or after `from`, runs past `k`. */
  lemma {:induction false} LeftmostComplete(ends: nat -> Option<nat>, from: nat, ps: seq<nat>, k: nat)
    requires Leftmost(ends, from, ps) && from <= k && ends(k).Some?
    requires forall j: nat :: from <= j < k && ends(j).Some? ==> ends(j).value <= k
    ensures k in ps
    decreases |ps|
  {
    if ps != [] && ps[0] != k {
      assert from <= ps[0] < k && ends(ps[0]).value <= k;
      LeftmostComplete(ends, ends(ps[0]).value, ps[1..], k);
    }
  }

  /** Where `Response [A-Z]` matching at `k` ends. */
  function LabelEnds(s: string): nat -> Option<nat> {
    (k: nat) => if LabelAt(s, k) then Some(k + 10) else None
  }

  /** The scan returns the labels at exactly the positions `re.findall` matches at, in order. */
  lemma {:induction false} FindLabelsMatches(s: string, from: nat) returns (ps: seq<nat>)
    requires from <= |s|
    ensures Leftmost(LabelEnds(s), from, ps)
    ensures MatchTexts(s, LabelEnds(s), FindLabels(s, from), ps)
    decreases |s| - from
  {
    if from + 10 > |s| {
      ps := [];
      assert forall k :: from <= k ==> !LabelAt(s, k);
    } else if LabelAt(s, from) {
      var rest := FindLabelsMatches(s, from + 10);
      ps := [from] + rest;
      LeftmostTake(LabelEnds(s), from, rest);
      assert FindLabels(s, from) == [s[from..from + 10]] + FindLabels(s, from + 10);
      MatchTextsTake(s, LabelEnds(s), from, FindLabels(s, from + 10), rest);
    } else {
      ps := FindLabelsMatches(s, from + 1);
      LeftmostSkip(LabelEnds(s), from, ps);
    }
  }

  /** Every label occurrence that no earlier occurrence overlaps is returned by the scan. */
  lemma FindLabelsComplete(s: string, from: nat, k: nat)
    requires from <= k && LabelAt(s, k)
    requires forall j :: from <= j < k < j + 10 ==> !LabelAt(s, j)
    ensures s[k..k + 10] in FindLabels(s, from)
  {
    var ps := FindLabelsMatches(s, from);
    LeftmostComplete(LabelEnds(s), from, ps, k);
    var i :| 0 <= i < |ps| && ps[i] == k;
  }

  /** The end of the run of ASCII digits starting at `i`. */
  function DigitRunEnd(s: string, i: nat): (j: nat)
    requires i <= |s|
    ensures i <= j <= |s|
    ensures forall k :: i <= k < j ==> IsDigit(s[k])
    ensures j == |s| || !IsDigit(s[j])
    decreases |s| - i
  {
    if i < |s| && IsDigit(s[i]) then DigitRunEnd(s, i + 1) else i
  }

  /** The end of the run of whitespace starting at `i`. */
  function SpaceRunEnd(s: string, i: nat): (j: nat)
    requires i <= |s|
    ensures i <= j <= |s|
    ensures forall k :: i <= k < j ==> s[k] in Whitespace
    ensures j == |s| || s[j] !in Whitespace
    decreases |s| - i
  {
    if i < |s| && s[i] in Whitespace then SpaceRunEnd(s, i + 1) else i
  }

  /** Where a match of `\d+\.\s*Response [A-Z]` starting at `i` ends. Both runs are
      maximal: backing off either leaves a digit where `.` is needed or whitespace where `R`
      is needed. */
  function NumberedEnd(s: string, i: nat): (r: Option<nat>)
    requires i <= |s|
    ensures r.Some? ==> i + 12 <= r.value <= |s|
  {
    var d := DigitRunEnd(s, i);
    if d == i || d == |s| || s[d] != '.' then None
    else
      var w := SpaceRunEnd(s, d + 1);
      if LabelAt(s, w) then Some(w + 10) else None
  }

  /** A numbered entry's text: digits, a period and whitespace, then a label. */
  predicate IsNumberedText(m: string) {
    && |m| >= 12
    && LabelAt(m, |m| - 10)
    && (forall k :: 0 <= k < |m| - 10 ==> IsDigit(m[k]) || m[k] == '.' || m[k] in Whitespace)
  }

  lemma NumberedEndText(s: string, i: nat)
    requires i <= |s| && NumberedEnd(s, i).Some?
    ensures IsNumberedText(s[i..NumberedEnd(s, i).value])
  {
    var e := NumberedEnd(s, i).value;
    var m := s[i..e];
    var w := e - 10;
    forall k | 0 <= k < |LabelPrefix| ensures m[|m| - 10 + k] == LabelPrefix[k] {
      assert m[|m| - 10 + k] == s[w + k];
    }
    forall k | 0 <= k < |m| - 10 ensures IsDigit(m[k]) || m[k] == '.' || m[k] in Whitespace {
      assert m[k] == s[i + k];
    }
  }

  /** `re.findall(r"\d+\.\s*Response [A-Z]", s[from..])`, as the matched texts. */
  function FindNumbered(s: string, from: nat): (r: seq<string>)
    requires from <= |s|
    ensures forall m :: m in r ==> IsNumberedText(m)
    decreases |s| - from
  {
    if from == |s| then []
    else
      match NumberedEnd(s, from)
      case Some(e) =>
        NumberedEndText(s, from);
        [s[from..e]] + FindNumbered(s, e)
      case None => FindNumbered(s, from + 1)
  }

  /** Where `\d+\.\s*Response [A-Z]` matching at `k` ends. */
  function NumberedEnds(s: string): nat -> Option<nat> {
    (k: nat) => if k <= |s| then NumberedEnd(s, k) else None
  }

  /** The scan returns the entries at exactly the positions `re.findall` matches at, in
      order, each running to the end of its match. */
  lemma {:induction false} FindNumberedMatches(s: string, from: nat) returns (ps: seq<nat>)
    requires from <= |s|
    ensures Leftmost(NumberedEnds(s), from, ps)
    ensures MatchTexts(s, NumberedEnds(s), FindNumbered(s, from), ps)
    decreases |s| - from
  {
    if from == |s| {
      ps := [];
      assert NumberedEnd(s, from).None?;
      assert forall k :: from < k ==> NumberedEnds(s)(k).None?;
    } else if NumberedEnd(s, from).Some? {
      var e := NumberedEnd(s, from).value;
      var rest := FindNumberedMatches(s, e);
      ps := [from] + rest;
      LeftmostTake(NumberedEnds(s), from, rest);
      assert FindNumbered(s, from) == [s[from..e]] + FindNumbered(s, e);
      MatchTextsTake(s, NumberedEnds(s), from, FindNumbered(s, e), rest);
    } else {
      ps := FindNumberedMatches(s, from + 1);
      LeftmostSkip(NumberedEnds(s), from, ps);
    }
  }

  /** Every numbered entry that no earlier entry overlaps is returned by the scan. */
  lemma FindNumberedComplete(s: string, from: nat, k: nat)
    requires from <= k <= |s| && NumberedEnd(s, k).Some?
    requires forall j :: from <= j < k && NumberedEnd(s, j).Some? ==> NumberedEnd(s, j).value <= k
    ensures s[k..NumberedEnd(s, k).value] in FindNumbered(s, from)
  {
    var ps := FindNumberedMatches(s, from);
    LeftmostComplete(NumberedEnds(s), from, ps, k);
    var i :| 0 <= i < |ps| && ps[i] == k;
  }

  /** `re.search(r"Response [A-Z]", m[from..])`: the first label occurring in `m`. */
  function SearchLabel(m: string, from: nat): (r: Option<string>)
    requires from <= |m|
    ensures r.Some? ==> IsLabel(r.value)
    decreases |m| - from
  {
    if from + 10 > |m| then None
    else if LabelAt(m, from) then
      LabelAtIsLabel(m, from);
      Some(m[from..from + 10])
    else SearchLabel(m, from + 1)
  }

  lemma LabelStartsWithR(s: string, i: nat)
    ensures LabelAt(s, i) ==> s[i] == 'R'
  {
    if LabelAt(s, i) {
      assert s[i + 0] == LabelPrefix[0];
    }
  }

  /** Searching a numbered entry's text finds the label it ends with: nothing before it can
      start a label, since no digit, period or whitespace is an `R`. */
  lemma {:induction false} SearchNumberedText(m: string, from: nat)
    requires IsNumberedText(m) && from <= |m| - 10
    ensures SearchLabel(m, from) == Some(m[|m| - 10..])
    decreases |m| - from
  {
    if from < |m| - 10 {
      assert m[from] != 'R' by {
        assert 'R' !in Whitespace;
      }
      LabelStartsWithR(m, from);
      SearchNumberedText(m, from + 1);
    } else {
      assert m[from..from + 10] == m[|m| - 10..];
    }
  }

  // ---------------------------------------------------------------------------------------
  // _parse_ranking_from_text

  const Marker: string := "FINAL RANKING:"

  /** `text.split("FINAL RANKING:")[1]`: what lies between the first marker and the next
      one, or the end of the text. */
  function Section(text: string): string
    requires Contains(text, Marker)
  {
    var start := FindFrom(text, Marker, 0).value + |Marker|;
    match FindFrom(text, Marker, start)
    case Some(j) => text[start..j]
    case None => text[start..]
  }

  /** The section starts right after the first marker, at `i`, and runs up to the next
      marker, at `j`, or to the end of the text. */
  lemma SectionSpan(text: string) returns (i: nat, j: nat)
    requires Contains(text, Marker)
    ensures OccursAt(text, Marker, i) && forall k: nat :: k < i ==> !OccursAt(text, Marker, k)
    ensures i + |Marker| <= j <= |text| && Section(text) == text[i + |Marker|..j]
    ensures j == |text| || OccursAt(text, Marker, j)
    ensures forall k: nat :: i + |Marker| <= k < j ==> !OccursAt(text, Marker, k)
  {
    i := FindFrom(text, Marker, 0).value;
    var start := i + |Marker|;
    j := if FindFrom(text, Marker, start).Some? then FindFrom(text, Marker, start).value else |text|;
  }

  /** The section holds no marker. */
  lemma SectionHasNoMarker(text: string)
    requires Contains(text, Marker)
    ensures forall k: nat :: !OccursAt(Section(text), Marker, k)
  {
    var i, j := SectionSpan(text);
    var start := i + |Marker|;
    var sec := Section(text);
    forall k: nat | OccursAt(sec, Marker, k) ensures false {
      assert OccursAt(text, Marker, start + k) by {
        forall t | 0 <= t < |Marker| ensures text[start + k + t] == Marker[t] {
          assert sec[k + t] == text[start + k + t];
        }
      }
    }
  }

  /** The label each numbered entry names, in order. */
  function NumberedLabels(ms: seq<string>): (r: seq<string>)
    ensures forall x :: x in r ==> IsLabel(x)
  {
    if ms == [] then []
    else
      var last := SearchLabel(ms[|ms| - 1], 0);
      NumberedLabels(ms[..|ms| - 1]) + (if last.Some? then [last.value] else [])
  }

  /** Each numbered entry contributes exactly the label it ends with. */
  lemma {:induction false} NumberedLabelsSuffixes(ms: seq<string>)
    requires forall m :: m in ms ==> IsNumberedText(m)
    ensures |NumberedLabels(ms)| == |ms|
    ensures forall i :: 0 <= i < |ms| ==> |ms[i]| >= 10 && NumberedLabels(ms)[i] == ms[i][|ms[i]| - 10..]
  {
    if ms != [] {
      var init, last := ms[..|ms| - 1], ms[|ms| - 1];
      assert forall m :: m in init ==> m in ms;
      NumberedLabelsSuffixes(init);
      assert last in ms;
      SearchNumberedText(last, 0);
      var r := NumberedLabels(ms);
      assert r == NumberedLabels(init) + [last[|last| - 10..]];
      forall i | 0 <= i < |ms| ensures |ms[i]| >= 10 && r[i] == ms[i][|ms[i]| - 10..] {
        if i < |init| {
          assert ms[i] == init[i] && r[i] == NumberedLabels(init)[i];
        }
      }
    }
  }

  /** What `_parse_ranking_from_text` returns. */
  function ParsedRanking(text: string): (r: seq<string>)
    ensures forall x :: x in r ==> IsLabel(x)
  {
    if Contains(text, Marker) then
      var sec := Section(text);
      var numbered := FindNumbered(sec, 0);
      if numbered != [] then
        NumberedLabels(numbered)
      else FindLabels(sec, 0)
    else FindLabels(text, 0)
  }

  /** The three ways a review is read: without the marker the whole text is scanned for
      labels; with it only the section is, numbered entries first, one label each, and bare
      labels only when there is no numbered entry. */
  lemma ParsedRankingCases(text: string)
    ensures !Contains(text, Marker) ==> ParsedRanking(text) == FindLabels(text, 0)
    ensures Contains(text, Marker) && FindNumbered(Section(text), 0) != [] ==>
              |ParsedRanking(text)| == |FindNumbered(Section(text), 0)| &&
              forall i :: 0 <= i < |ParsedRanking(text)| ==>
                var m := FindNumbered(Section(text), 0)[i];
                |m| >= 10 && ParsedRanking(text)[i] == m[|m| - 10..]
    ensures Contains(text, Marker) && FindNumbered(Section(text), 0) == [] ==>
              ParsedRanking(text) == FindLabels(Section(text), 0)
  {
    if Contains(text, Marker) && FindNumbered(Section(text), 0) != [] {
      NumberedLabelsSuffixes(FindNumbered(Section(text), 0));
    }
  }

  /** `_parse_ranking_from_text(text)`. */
  method ParseRanking(text: string) returns (result: seq<string>)
    ensures result == ParsedRanking(text)
    ensures forall x :: x in result ==> IsLabel(x)
  {
    if Contains(text, Marker) {
      var section := Section(text);
      var numbered := FindNumbered(section, 0);
      if numbered != [] {
        result := [];
        for i := 0 to |numbered|
          invariant result == NumberedLabels(numbered[..i])
        {
          assert numbered[..i + 1][..i] == numbered[..i];
          var found := SearchLabel(numbered[i], 0);
          if found.Some? {
            result := result + [found.value];
          }
        }
        assert numbered[..|numbered|] == numbered;
        return;
      }
      return FindLabels(section, 0);
    }
    result := FindLabels(text, 0);
  }

  // ---------------------------------------------------------------------------------------
  // _calculate_aggregate_rankings

  /** One position a review gave a model: `model_positions[model].append(position)`. */
  datatype Vote = Vote(model: string, position: nat)

  /** The votes one parsed ranking casts: each label the mapping knows gives its model the
      label's 1-based position; other labels are skipped. */
  function VotesOf(parsed: seq<string>, labelToModel: map<string, string>): seq<Vote> {
    if parsed == [] then []
    else
      var n := |parsed|;
      VotesOf(parsed[..n - 1], labelToModel)
        + (if parsed[n - 1] in labelToModel then [Vote(labelToModel[parsed[n - 1]], n)] else [])
  }

  /** A vote is cast exactly for each known label, at that label's position. */
  lemma {:induction false} VotesOfExactly(parsed: seq<string>, labelToModel: map<string, string>)
    ensures forall v :: v in VotesOf(parsed, labelToModel) <==>
              exists k :: 0 <= k < |parsed| && parsed[k] in labelToModel && v == Vote(labelToModel[parsed[k]], k + 1)
  {
    if parsed != [] {
      var init := parsed[..|parsed| - 1];
      VotesOfExactly(init, labelToModel);
      forall v | v in VotesOf(parsed, labelToModel)
        ensures exists k :: 0 <= k < |parsed| && parsed[k] in labelToModel && v == Vote(labelToModel[parsed[k]], k + 1)
      {
        if v in VotesOf(init, labelToModel) {
          var k :| 0 <= k < |init| && init[k] in labelToModel && v == Vote(labelToModel[init[k]], k + 1);
          assert parsed[k] == init[k];
        }
      }
      forall k | 0 <= k < |parsed| && parsed[k] in labelToModel
        ensures Vote(labelToModel[parsed[k]], k + 1) in VotesOf(parsed, labelToModel)
      {
        if k < |init| {
          assert init[k] == parsed[k];
        }
      }
    }
  }

  /** Every stage-2 entry holds a review. */
  predicate AllReviews(s2: seq<Stage2Entry>) {
    forall e :: e in s2 ==> e.RankingEntry?
  }

  /** The votes of all reviews, review by review. Each review is parsed afresh from its
      text. */
  function Votes(s2: seq<Stage2Entry>, labelToModel: map<string, string>): seq<Vote>
    requires AllReviews(s2)
  {
    if s2 == [] then []
    else
      var last := s2[|s2| - 1];
      Votes(s2[..|s2| - 1], labelToModel) + VotesOf(ParsedRanking(last.ranking), labelToModel)
  }

  /** The models voted for, in the order of their first vote: the keys of the
      `defaultdict`, in insertion order. */
  function FirstAppearance(votes: seq<Vote>): seq<string> {
    if votes == [] then []
    else
      var init := votes[..|votes| - 1];
      var v := votes[|votes| - 1];
      FirstAppearance(init) + (if v.model in FirstAppearance(init) then [] else [v.model])
  }

  /** Each model voted for appears once, and no other model does. */
  lemma {:induction false} FirstAppearanceExactly(votes: seq<Vote>)
    ensures forall i, j :: 0 <= i < j < |FirstAppearance(votes)| ==> FirstAppearance(votes)[i] != FirstAppearance(votes)[j]
    ensures forall m :: m in FirstAppearance(votes) <==> exists v :: v in votes && v.model == m
  {
    if votes != [] {
      var init := votes[..|votes| - 1];
      var v := votes[|votes| - 1];
      FirstAppearanceExactly(init);
      assert forall w :: w in votes <==> w in init || w == v;
    }
  }

  /** `model_positions[model]`: the positions voted for `model`, in order. */
  function PositionsOf(votes: seq<Vote>, model: string): seq<nat> {
    if votes == [] then []
    else
      var v := votes[|votes| - 1];
      PositionsOf(votes[..|votes| - 1], model) + (if v.model == model then [v.position] else [])
  }

  function Sum(xs: seq<nat>): nat {
    if xs == [] then 0 else Sum(xs[..|xs| - 1]) + xs[|xs| - 1]
  }

  /** The unsorted aggregate: one entry per model with at least one position. */
  function Entries(models: seq<string>, votes: seq<Vote>): seq<AggregateEntry> {
    if models == [] then []
    else
      var m := models[|models| - 1];
      var ps := PositionsOf(votes, m);
      Entries(models[..|models| - 1], votes) + (if |ps| > 0 then [AggregateEntry(m, Sum(ps), |ps|)] else [])
  }

  /** `average_rank`, exactly. */
  function Average(e: AggregateEntry): real {
    if e.rankingsCount == 0 then 0.0 else e.positionSum as real / e.rankingsCount as real
  }

  /** The entries are in non-decreasing order of average rank. */
  predicate SortedByAverage(s: seq<AggregateEntry>) {
    forall i, j :: 0 <= i < j < |s| ==> Average(s[i]) <= Average(s[j])
  }

  /** `x` placed after every entry of `s` whose average is not above its own. */
  function Insert(x: AggregateEntry, s: seq<AggregateEntry>): (r: seq<AggregateEntry>)
    ensures multiset(r) == multiset(s) + multiset{x}
  {
    if s == [] then [x]
    else if Average(s[|s| - 1]) <= Average(x) then s + [x]
    else
      var init := s[..|s| - 1];
      assert s == init + [s[|s| - 1]];
      Insert(x, init) + [s[|s| - 1]]
  }

  /** `list.sort(key=average_rank)`: a stable sort, here insertion. */
  function SortByAverage(s: seq<AggregateEntry>): (r: seq<AggregateEntry>)
    ensures multiset(r) == multiset(s)
  {
    if s == [] then []
    else
      assert s == s[..|s| - 1] + [s[|s| - 1]];
      Insert(s[|s| - 1], SortByAverage(s[..|s| - 1]))
  }

  /** What `_calculate_aggregate_rankings` returns. */
  function AggregateRankings(s2: seq<Stage2Entry>, labelToModel: map<string, string>): seq<AggregateEntry>
    requires AllReviews(s2)
  {
    var votes := Votes(s2, labelToModel);
    SortByAverage(Entries(FirstAppearance(votes), votes))
  }

  // Sorting: order, permutation and stability

  /** Inserting into a sorted list keeps it sorted. */
  lemma {:induction false} InsertSorted(x: AggregateEntry, s: seq<AggregateEntry>)
    requires SortedByAverage(s)
    ensures SortedByAverage(Insert(x, s))
  {
    if s != [] && Average(s[|s| - 1]) > Average(x) {
      var init, l := s[..|s| - 1], s[|s| - 1];
      assert SortedByAverage(init) by {
        assert forall i :: 0 <= i < |init| ==> init[i] == s[i];
      }
      InsertSorted(x, init);
      var r := Insert(x, init);
      assert Insert(x, s) == r + [l];
      forall e | e in init ensures Average(e) <= Average(l) {
        var k :| 0 <= k < |init| && init[k] == e;
        assert s[k] == e;
      }
      InsertBounded(x, init, Average(l));
      SortedSnoc(r, l);
    }
  }

  /** Inserting an entry whose average is within a bound into entries within it keeps every
      entry within it. */
  lemma InsertBounded(x: AggregateEntry, s: seq<AggregateEntry>, bound: real)
    requires Average(x) <= bound
    requires forall e | e in s :: Average(e) <= bound
    ensures forall e | e in Insert(x, s) :: Average(e) <= bound
  {
    forall e | e in Insert(x, s) ensures Average(e) <= bound {
      assert e in multiset(Insert(x, s));
      assert e == x || e in multiset(s);
    }
  }

  /** A sorted list followed by an entry at least as large as all of it is sorted. */
  lemma SortedSnoc(r: seq<AggregateEntry>, l: AggregateEntry)
    requires SortedByAverage(r)
    requires forall e | e in r :: Average(e) <= Average(l)
    ensures SortedByAverage(r + [l])
  {
    forall i, j | 0 <= i < j < |r| + 1 ensures Average((r + [l])[i]) <= Average((r + [l])[j]) {
      if j == |r| {
        assert r[i] in r;
      }
    }
  }

  /** The sort orders the entries by average rank. */
  lemma {:induction false} SortSorted(s: seq<AggregateEntry>)
    ensures SortedByAverage(SortByAverage(s))
  {
    if s != [] {
      SortSorted(s[..|s| - 1]);
      InsertSorted(s[|s| - 1], SortByAverage(s[..|s| - 1]));
    }
  }

  /** The entries whose average rank is `v`, in their order. */
  function WithAverage(s: seq<AggregateEntry>, v: real): seq<AggregateEntry> {
    if s == [] then []
    else WithAverage(s[..|s| - 1], v) + (if Average(s[|s| - 1]) == v then [s[|s| - 1]] else [])
  }

  lemma {:induction false} WithAverageAppend(a: seq<AggregateEntry>, b: seq<AggregateEntry>, v: real)
    ensures WithAverage(a + b, v) == WithAverage(a, v) + WithAverage(b, v)
    decreases |b|
  {
    if b == [] {
      assert a + b == a;
    } else {
      var b' := b[..|b| - 1];
      assert (a + b)[..|a + b| - 1] == a + b';
      WithAverageAppend(a, b', v);
    }
  }

  /** Inserting `x` puts it behind every entry with the same average. */
  lemma {:induction false} InsertStable(x: AggregateEntry, s: seq<AggregateEntry>, v: real)
    ensures WithAverage(Insert(x, s), v) == WithAverage(s, v) + (if Average(x) == v then [x] else [])
  {
    if s == [] {
      assert [x][..0] == [];
    } else if Average(s[|s| - 1]) <= Average(x) {
      assert Insert(x, s) == s + [x];
      assert [x][..0] == [];
      WithAverageAppend(s, [x], v);
    } else {
      var init, l := s[..|s| - 1], s[|s| - 1];
      assert Insert(x, s) == Insert(x, init) + [l];
      assert WithAverage(s, v) == WithAverage(init, v) + (if Average(l) == v then [l] else []);
      InsertStable(x, init, v);
      assert [l][..0] == [];
      WithAverageAppend(Insert(x, init), [l], v);
    }
  }

  /** The sort is stable: entries with equal averages keep their relative order. */
  lemma {:induction false} SortStable(s: seq<AggregateEntry>, v: real)
    ensures WithAverage(SortByAverage(s), v) == WithAverage(s, v)
  {
    if s != [] {
      SortStable(s[..|s| - 1], v);
      InsertStable(s[|s| - 1], SortByAverage(s[..|s| - 1]), v);
    }
  }

  // Counting: what each entry holds, and how many votes there are

  /** A model has positions exactly when some vote is for it. */
  lemma {:induction false} PositionsNonEmptyIff(votes: seq<Vote>, model: string)
    ensures |PositionsOf(votes, model)| > 0 <==> exists v :: v in votes && v.model == model
  {
    if votes != [] {
      var init := votes[..|votes| - 1];
      PositionsNonEmptyIff(init, model);
      assert forall w :: w in votes <==> w in init || w == votes[|votes| - 1];
    }
  }

  /** The entries built for `models` are those of the models with positions, each holding
      the sum and the number of its positions. */
  lemma {:induction false} EntriesMembers(models: seq<string>, votes: seq<Vote>)
    ensures forall e :: e in Entries(models, votes) <==>
              e.model in models && |PositionsOf(votes, e.model)| > 0 &&
              e == AggregateEntry(e.model, Sum(PositionsOf(votes, e.model)), |PositionsOf(votes, e.model)|)
  {
    if models != [] {
      var init := models[..|models| - 1];
      EntriesMembers(init, votes);
      assert forall m :: m in models <==> m in init || m == models[|models| - 1];
    }
  }

  /** One entry per model voted for: every model with a vote gets exactly its own entry. */
  lemma {:induction false} EntriesLength(models: seq<string>, votes: seq<Vote>)
    requires forall m :: m in models ==> |PositionsOf(votes, m)| > 0
    ensures |Entries(models, votes)| == |models|
  {
    if models != [] {
      var init := models[..|models| - 1];
      assert forall m :: m in init ==> m in models;
      EntriesLength(init, votes);
    }
  }

  /** `sum(e.rankings_count for e in s)`. */
  function TotalCount(s: seq<AggregateEntry>): nat {
    if s == [] then 0 else TotalCount(s[..|s| - 1]) + s[|s| - 1].rankingsCount
  }

  lemma {:induction false} TotalCountAppend(a: seq<AggregateEntry>, b: seq<AggregateEntry>)
    ensures TotalCount(a + b) == TotalCount(a) + TotalCount(b)
    decreases |b|
  {
    if b == [] {
      assert a + b == a;
    } else {
      var b' := b[..|b| - 1];
      assert (a + b)[..|a + b| - 1] == a + b';
      TotalCountAppend(a, b');
    }
  }

  lemma {:induction false} TotalCountInsert(x: AggregateEntry, s: seq<AggregateEntry>)
    ensures TotalCount(Insert(x, s)) == TotalCount(s) + x.rankingsCount
  {
    if s == [] {
    } else if Average(s[|s| - 1]) <= Average(x) {
      TotalCountAppend(s, [x]);
    } else {
      var init := s[..|s| - 1];
      TotalCountInsert(x, init);
      TotalCountAppend(Insert(x, init), [s[|s| - 1]]);
    }
  }

  lemma {:induction false} TotalCountSort(s: seq<AggregateEntry>)
    ensures TotalCount(SortByAverage(s)) == TotalCount(s)
  {
    if s != [] {
      TotalCountSort(s[..|s| - 1]);
      TotalCountInsert(s[|s| - 1], SortByAverage(s[..|s| - 1]));
    }
  }

  /** The number of positions of all `models` together. */
  function CountsOver(models: seq<string>, votes: seq<Vote>): nat {
    if models == [] then 0
    else CountsOver(models[..|models| - 1], votes) + |PositionsOf(votes, models[|models| - 1])|
  }

  lemma {:induction false} EntriesTotal(models: seq<string>, votes: seq<Vote>)
    ensures TotalCount(Entries(models, votes)) == CountsOver(models, votes)
  {
    if models != [] {
      var init := models[..|models| - 1];
      var m := models[|models| - 1];
      EntriesTotal(init, votes);
      var ps := PositionsOf(votes, m);
      TotalCountAppend(Entries(init, votes), if |ps| > 0 then [AggregateEntry(m, Sum(ps), |ps|)] else []);
    }
  }

  /** One more vote adds one position to its model and none to the others. */
  lemma {:induction false} CountsOverSnoc(models: seq<string>, votes: seq<Vote>)
    requires votes != []
    requires forall i, j :: 0 <= i < j < |models| ==> models[i] != models[j]
    ensures CountsOver(models, votes) ==
              CountsOver(models, votes[..|votes| - 1]) + (if votes[|votes| - 1].model in models then 1 else 0)
  {
    if models != [] {
      var init := models[..|models| - 1];
      CountsOverSnoc(init, votes);
      assert forall m :: m in models <==> m in init || m == models[|models| - 1];
      assert models[|models| - 1] !in init by {
        forall i | 0 <= i < |init| ensures init[i] != models[|models| - 1] {
          assert init[i] == models[i];
        }
      }
    }
  }

  /** A model not among those voted for has no positions. */
  lemma UnvotedHasNoPositions(votes: seq<Vote>, model: string)
    requires model !in FirstAppearance(votes)
    ensures PositionsOf(votes, model) == []
  {
    FirstAppearanceExactly(votes);
    PositionsNonEmptyIff(votes, model);
  }

  /** The models voted for are listed once each. */
  lemma FirstAppearanceDistinct(votes: seq<Vote>)
    ensures forall i, j :: 0 <= i < j < |FirstAppearance(votes)| ==> FirstAppearance(votes)[i] != FirstAppearance(votes)[j]
  {
    FirstAppearanceExactly(votes);
  }

  /** Every vote is counted once: the counts over the models voted for add up to the number
      of votes. */
  lemma {:induction false} CountsOverAllVotes(votes: seq<Vote>)
    ensures CountsOver(FirstAppearance(votes), votes) == |votes|
  {
    if votes != [] {
      var init, v := votes[..|votes| - 1], votes[|votes| - 1];
      var fa := FirstAppearance(init);
      FirstAppearanceDistinct(init);
      CountsOverAllVotes(init);
      CountsOverSnoc(fa, votes);
      if v.model !in fa {
        var fa' := fa + [v.model];
        assert FirstAppearance(votes) == fa';
        assert fa'[..|fa'| - 1] == fa;
        assert CountsOver(fa', votes) == CountsOver(fa, votes) + |PositionsOf(votes, v.model)|;
        UnvotedHasNoPositions(init, v.model);
        assert |PositionsOf(votes, v.model)| == 1;
      } else {
        assert FirstAppearance(votes) == fa;
      }
    }
  }

  /** The votes are exactly those the parsed reviews cast, review by review. */
  lemma {:induction false} VotesExactly(s2: seq<Stage2Entry>, labelToModel: map<string, string>)
    requires AllReviews(s2)
    ensures forall v :: v in Votes(s2, labelToModel) <==>
              exists i :: 0 <= i < |s2| && v in VotesOf(ParsedRanking(s2[i].ranking), labelToModel)
  {
    if s2 != [] {
      var init := s2[..|s2| - 1];
      assert forall e :: e in init ==> e in s2;
      VotesExactly(init, labelToModel);
      forall v | v in Votes(s2, labelToModel)
        ensures exists i :: 0 <= i < |s2| && v in VotesOf(ParsedRanking(s2[i].ranking), labelToModel)
      {
        VoteFromSomeReview(s2, labelToModel, v);
      }
      forall i, v | 0 <= i < |s2| && v in VotesOf(ParsedRanking(s2[i].ranking), labelToModel)
        ensures v in Votes(s2, labelToModel)
      {
        if i < |init| {
          assert init[i] == s2[i];
          assert v in VotesOf(ParsedRanking(init[i].ranking), labelToModel);
        }
        ReviewVoteCounted(s2, labelToModel, i, v);
      }
    }
  }

  /** Step of `VotesExactly`: a vote of the whole list comes from one of its reviews. */
  lemma VoteFromSomeReview(s2: seq<Stage2Entry>, labelToModel: map<string, string>, v: Vote)
    requires AllReviews(s2) && s2 != []
    requires AllReviews(s2[..|s2| - 1])
    requires v in Votes(s2, labelToModel)
    requires v in Votes(s2[..|s2| - 1], labelToModel) ==>
               exists i :: 0 <= i < |s2| - 1 && v in VotesOf(ParsedRanking(s2[i].ranking), labelToModel)
    ensures exists i :: 0 <= i < |s2| && v in VotesOf(ParsedRanking(s2[i].ranking), labelToModel)
  {
    var n := |s2| - 1;
    if v !in Votes(s2[..n], labelToModel) {
      assert Votes(s2, labelToModel) == Votes(s2[..n], labelToModel) + VotesOf(ParsedRanking(s2[n].ranking), labelToModel);
      assert v in VotesOf(ParsedRanking(s2[n].ranking), labelToModel);
    }
  }

  /** Step of `VotesExactly`: a vote a review casts is among the votes of the whole list. */
  lemma ReviewVoteCounted(s2: seq<Stage2Entry>, labelToModel: map<string, string>, i: nat, v: Vote)
    requires AllReviews(s2) && i < |s2|
    requires AllReviews(s2[..|s2| - 1])
    requires v in VotesOf(ParsedRanking(s2[i].ranking), labelToModel)
    requires i < |s2| - 1 ==> v in Votes(s2[..|s2| - 1], labelToModel)
    ensures v in Votes(s2, labelToModel)
  {
    var n := |s2| - 1;
    var earlier := Votes(s2[..n], labelToModel);
    var latest := VotesOf(ParsedRanking(s2[n].ranking), labelToModel);
    assert Votes(s2, labelToModel) == earlier + latest;
    if i == n {
      assert v in latest;
    } else {
      assert v in earlier;
    }
  }

  /** The aggregate is the per-model entries sorted by average rank: non-decreasing,
      nothing gained or lost, and ties in the order the models were first voted for. */
  lemma AggregateSorted(s2: seq<Stage2Entry>, labelToModel: map<string, string>)
    requires AllReviews(s2)
    ensures var votes := Votes(s2, labelToModel);
            var entries := Entries(FirstAppearance(votes), votes);
            && SortedByAverage(AggregateRankings(s2, labelToModel))
            && multiset(AggregateRankings(s2, labelToModel)) == multiset(entries)
            && forall v: real :: WithAverage(AggregateRankings(s2, labelToModel), v) == WithAverage(entries, v)
  {
    var votes := Votes(s2, labelToModel);
    var entries := Entries(FirstAppearance(votes), votes);
    SortSorted(entries);
    forall v: real ensures WithAverage(SortByAverage(entries), v) == WithAverage(entries, v) {
      SortStable(entries, v);
    }
  }

  /** Each model voted for has exactly one entry, holding the number and the sum of the
      positions it was given; no other model has one. */
  lemma AggregateEntriesExact(s2: seq<Stage2Entry>, labelToModel: map<string, string>)
    requires AllReviews(s2)
    ensures var votes := Votes(s2, labelToModel);
            var agg := AggregateRankings(s2, labelToModel);
            && |agg| == |FirstAppearance(votes)|
            && (forall e :: e in agg ==>
                  && e.rankingsCount == |PositionsOf(votes, e.model)| > 0
                  && e.positionSum == Sum(PositionsOf(votes, e.model))
                  && Average(e) == Sum(PositionsOf(votes, e.model)) as real / |PositionsOf(votes, e.model)| as real)
            && (forall e1, e2 :: e1 in agg && e2 in agg && e1.model == e2.model ==> e1 == e2)
            && (forall m :: HasEntry(agg, m) <==> VotedFor(votes, m))
  {
    var votes := Votes(s2, labelToModel);
    var entries := Entries(FirstAppearance(votes), votes);
    var agg := AggregateRankings(s2, labelToModel);
    EntriesExact(votes);
    SameMembers(agg, entries);
    forall m | HasEntry(entries, m) ensures HasEntry(agg, m) {
      var e :| e in entries && e.model == m;
      assert e in agg;
    }
  }

  /** The entries built from the votes, before sorting, have the properties of
      `AggregateEntriesExact`. */
  lemma EntriesExact(votes: seq<Vote>)
    ensures var entries := Entries(FirstAppearance(votes), votes);
            && |entries| == |FirstAppearance(votes)|
            && (forall e :: e in entries ==>
                  && e.rankingsCount == |PositionsOf(votes, e.model)| > 0
                  && e.positionSum == Sum(PositionsOf(votes, e.model))
                  && Average(e) == Sum(PositionsOf(votes, e.model)) as real / |PositionsOf(votes, e.model)| as real)
            && (forall e1, e2 :: e1 in entries && e2 in entries && e1.model == e2.model ==> e1 == e2)
            && (forall m :: HasEntry(entries, m) <==> VotedFor(votes, m))
  {
    var models := FirstAppearance(votes);
    var entries := Entries(models, votes);
    FirstAppearanceExactly(votes);
    EntriesMembers(models, votes);
    forall m | m in models ensures |PositionsOf(votes, m)| > 0 {
      PositionsNonEmptyIff(votes, m);
    }
    EntriesLength(models, votes);
    forall m | VotedFor(votes, m) ensures HasEntry(entries, m) {
      PositionsNonEmptyIff(votes, m);
      var e := AggregateEntry(m, Sum(PositionsOf(votes, m)), |PositionsOf(votes, m)|);
      assert e in entries;
    }
  }

  /** Two lists that are permutations of each other have the same length and members. */
  lemma SameMembers(a: seq<AggregateEntry>, b: seq<AggregateEntry>)
    requires multiset(a) == multiset(b)
    ensures |a| == |b| && forall e :: e in a <==> e in b
  {
    assert |multiset(a)| == |multiset(b)|;
    forall e ensures e in a <==> e in b {
      assert e in a <==> e in multiset(a);
      assert e in b <==> e in multiset(b);
    }
  }

  /** Some vote is for `model`. */
  predicate VotedFor(votes: seq<Vote>, model: string) {
    exists v :: v in votes && v.model == model
  }

  /** Some entry is for `model`. */
  predicate HasEntry(agg: seq<AggregateEntry>, model: string) {
    exists e :: e in agg && e.model == model
  }

  /** The counts add up to the number of labels parsed that the mapping knows. */
  lemma AggregateCountsTotal(s2: seq<Stage2Entry>, labelToModel: map<string, string>)
    requires AllReviews(s2)
    ensures TotalCount(AggregateRankings(s2, labelToModel)) == |Votes(s2, labelToModel)|
  {
    var votes := Votes(s2, labelToModel);
    var models := FirstAppearance(votes);
    TotalCountSort(Entries(models, votes));
    EntriesTotal(models, votes);
    CountsOverAllVotes(votes);
  }

  /** `models` and `positions` are the `defaultdict` after `votes`: its keys in insertion
      order, and each model's positions. */
  ghost predicate Grouped(votes: seq<Vote>, models: seq<string>, positions: map<string, seq<nat>>) {
    && models == FirstAppearance(votes)
    && (forall m :: m in positions <==> m in models)
    && (forall m :: m in positions ==> positions[m] == PositionsOf(votes, m))
  }

  /** Appending one position keeps the dict in step with the votes. */
  lemma GroupedSnoc(votes: seq<Vote>, models: seq<string>, positions: map<string, seq<nat>>, vote: Vote)
    requires Grouped(votes, models, positions)
    ensures var models' := if vote.model in positions then models else models + [vote.model];
            var base := if vote.model in positions then positions else positions[vote.model := []];
            Grouped(votes + [vote], models', base[vote.model := base[vote.model] + [vote.position]])
  {
    var votes' := votes + [vote];
    var models' := if vote.model in positions then models else models + [vote.model];
    var base := if vote.model in positions then positions else positions[vote.model := []];
    var positions' := base[vote.model := base[vote.model] + [vote.position]];
    assert votes'[..|votes'| - 1] == votes;
    assert models' == FirstAppearance(votes');
    assert forall m :: m in positions' <==> m in models';
    forall m | m in positions' ensures positions'[m] == PositionsOf(votes', m) {
      assert PositionsOf(votes', m) == PositionsOf(votes, m) + (if vote.model == m then [vote.position] else []);
      if m != vote.model {
        assert m in positions;
      } else if vote.model !in positions {
        UnvotedHasNoPositions(votes, m);
      }
    }
  }

  /** The inner loop: records the positions one parsed ranking gives. */
  method RecordRanking(parsed: seq<string>, labelToModel: map<string, string>,
                       models0: seq<string>, positions0: map<string, seq<nat>>, ghost votes0: seq<Vote>)
    returns (models: seq<string>, positions: map<string, seq<nat>>, ghost votes: seq<Vote>)
    requires Grouped(votes0, models0, positions0)
    ensures votes == votes0 + VotesOf(parsed, labelToModel)
    ensures Grouped(votes, models, positions)
  {
    models, positions, votes := models0, positions0, votes0;
    for p := 0 to |parsed|
      invariant votes == votes0 + VotesOf(parsed[..p], labelToModel)
      invariant Grouped(votes, models, positions)
    {
      assert parsed[..p + 1][..p] == parsed[..p];
      assert VotesOf(parsed[..p + 1], labelToModel) == VotesOf(parsed[..p], labelToModel)
        + (if parsed[p] in labelToModel then [Vote(labelToModel[parsed[p]], p + 1)] else []);
      if parsed[p] in labelToModel {
        models, positions, votes := RecordVote(Vote(labelToModel[parsed[p]], p + 1), models, positions, votes);
      }
    }
    assert parsed[..|parsed|] == parsed;
  }

  /** One pass of the inner loop: `positions[model].append(position)`, the model first
      getting an empty list when it has none. */
  method RecordVote(vote: Vote, models0: seq<string>, positions0: map<string, seq<nat>>, ghost votes0: seq<Vote>)
    returns (models: seq<string>, positions: map<string, seq<nat>>, ghost votes: seq<Vote>)
    requires Grouped(votes0, models0, positions0)
    ensures votes == votes0 + [vote]
    ensures Grouped(votes, models, positions)
  {
    GroupedSnoc(votes0, models0, positions0, vote);
    models, positions := models0, positions0;
    if vote.model !in positions {
      models := models + [vote.model];
      positions := positions[vote.model := []];
    }
    positions := positions[vote.model := positions[vote.model] + [vote.position]];
    votes := votes0 + [vote];
  }

  /** The outer loop: records every review's positions. */
  method CollectPositions(s2: seq<Stage2Entry>, labelToModel: map<string, string>)
    returns (models: seq<string>, positions: map<string, seq<nat>>, ghost votes: seq<Vote>)
    requires AllReviews(s2)
    ensures votes == Votes(s2, labelToModel)
    ensures Grouped(votes, models, positions)
  {
    models, positions, votes := [], map[], [];
    for r := 0 to |s2|
      invariant votes == Votes(s2[..r], labelToModel)
      invariant Grouped(votes, models, positions)
    {
      var done := s2[..r + 1];
      assert done[..r] == s2[..r] && done[r] == s2[r];
      assert s2[r] in s2;
      assert Votes(done, labelToModel) == votes + VotesOf(ParsedRanking(s2[r].ranking), labelToModel);
      var parsed := ParseRanking(s2[r].ranking);
      models, positions, votes := RecordRanking(parsed, labelToModel, models, positions, votes);
    }
    assert s2[..|s2|] == s2;
  }

  /** `_calculate_aggregate_rankings(stage2_results, label_to_model)`: collects each
      model's positions in a dict keyed by model (kept in insertion order), turns them into
      entries, then sorts by average rank. */
  method CalculateAggregateRankings(s2: seq<Stage2Entry>, labelToModel: map<string, string>)
    returns (aggregate: seq<AggregateEntry>)
    requires AllReviews(s2)
    ensures aggregate == AggregateRankings(s2, labelToModel)
  {
    var models, positions, votes := CollectPositions(s2, labelToModel);
    var entries := BuildEntries(models, positions, votes);
    aggregate := SortByAverage(entries);
  }

  /** The loop of `_calculate_aggregate_rankings` that builds one entry per model with
      positions. */
  method BuildEntries(models: seq<string>, positions: map<string, seq<nat>>, ghost votes: seq<Vote>)
    returns (entries: seq<AggregateEntry>)
    requires forall m :: m in models ==> m in positions && positions[m] == PositionsOf(votes, m)
    ensures entries == Entries(models, votes)
  {
    entries := [];
    for i := 0 to |models|
      invariant entries == Entries(models[..i], votes)
    {
      var ps := positions[models[i]];
      assert ps == PositionsOf(votes, models[i]);
      assert models[..i + 1][..i] == models[..i];
      assert Entries(models[..i + 1], votes)
        == entries + (if |ps| > 0 then [AggregateEntry(models[i], Sum(ps), |ps|)] else []);
      if |ps| > 0 {
        entries := entries + [AggregateEntry(models[i], Sum(ps), |ps|)];
      }
    }
    assert models[..|models|] == models;
  }
}
