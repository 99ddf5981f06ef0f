/**
 * The UWB report parsers and the enumeration reader of src/main.py:
 * `parse_anchor_positions` (the `pos=` regular expression over anchor-roster
 * lines), `parse_tag_position` (comma-separated continuous-mode lines) and
 * `DWM1001.read_dwm_messages` (lines up to the `INF] ` terminator).
 *
 * Report lines are text; each byte of a raw line is one character, so a
 * line's length in bytes is its length here.
 */
module Reports {

  import opened Wrappers
  import opened Text

  // ---------------------------------------------------------------------
  // Anchor roster: `pos=` followed by three colon-separated runs of digits,
  // dots and minus signs, searched anywhere in the line
  // ---------------------------------------------------------------------

  /** The character class `[\d.-]`. */
  predicate IsNumChar(c: char) { ('0' <= c <= '9') || c == '.' || c == '-' }

  /** A non-empty run of `[\d.-]` characters, as one capture group of the pattern. */
  predicate IsRun(t: string) {
    |t| > 0 && forall k :: 0 <= k < |t| ==> IsNumChar(t[k])
  }

  /** The three captured groups of one match, kept as text (`float()` is applied later). */
  datatype AnchorLexemes = AnchorLexemes(x: string, y: string, z: string)

  /** A 3D point, as produced by `float()` on each lexeme. */
  datatype Point = Point(x: real, y: real, z: real)

  /** Length of the maximal `[\d.-]` run starting at `i`. */
  function RunLength(s: string, i: nat): (n: nat)
    requires i <= |s|
    ensures i + n <= |s|
    decreases |s| - i
  {
    if i < |s| && IsNumChar(s[i]) then 1 + RunLength(s, i + 1) else 0
  }

  /** `RunLength` measures a run of class characters that the next character does not extend. */
  lemma {:induction false} RunLengthMaximal(s: string, i: nat)
    requires i <= |s|
    ensures var n := RunLength(s, i);
      && (forall k :: i <= k < i + n ==> IsNumChar(s[k]))
      && (i + n == |s| || !IsNumChar(s[i + n]))
    decreases |s| - i
  {
    if i < |s| && IsNumChar(s[i]) {
      RunLengthMaximal(s, i + 1);
    }
  }

  /** A run followed by a non-member of the class is exactly as long as `RunLength` says. */
  lemma {:induction false} RunLengthExact(s: string, i: nat, n: nat)
    requires i + n <= |s|
    requires forall k :: i <= k < i + n ==> IsNumChar(s[k])
    requires i + n == |s| || !IsNumChar(s[i + n])
    ensures RunLength(s, i) == n
    decreases n
  {
    if n > 0 {
      RunLengthExact(s, i + 1, n - 1);
    }
  }

  /**
   * A non-empty maximal run at `i` followed by `:`; gives the index of the
   * colon.
   */
  function RunThenColon(s: string, i: nat): (r: Option<nat>)
    requires i <= |s|
    ensures r.Some? ==> i < r.value < |s|
  {
    var n := RunLength(s, i);
    if n > 0 && i + n < |s| && s[i + n] == ':' then Some(i + n) else None
  }

  /** The literal `pos=` of the pattern occurs at `p`. */
  predicate PosAt(s: string, p: nat) {
    p + 4 <= |s| && s[p] == 'p' && s[p + 1] == 'o' && s[p + 2] == 's' && s[p + 3] == '='
  }

  /** Where the three groups of a match end: the two colons and the end of the third run. */
  datatype Ends = Ends(j1: nat, j2: nat, j3: nat)

  /**
   * The match attempt at position `p`: `pos=`, then three greedy runs separated
   * by `:`. Because `:` is not in the class, a greedy run can only be followed by
   * `:` if it is maximal, so backtracking never finds another match here.
   */
  function MatchEnds(s: string, p: nat): (r: Option<Ends>)
    requires p <= |s|
    ensures r.Some? ==> p + 4 < r.value.j1 < r.value.j2 < r.value.j3 <= |s|
  {
    if !PosAt(s, p) then None
    else match RunThenColon(s, p + 4)
      case None => None
      case Some(j1) =>
        match RunThenColon(s, j1 + 1)
        case None => None
        case Some(j2) =>
          var n3 := RunLength(s, j2 + 1);
          if n3 == 0 then None else Some(Ends(j1, j2, j2 + 1 + n3))
  }

  /** The groups of the match attempt at `p`, as text. */
  function MatchAt(s: string, p: nat): Option<AnchorLexemes>
    requires p <= |s|
  {
    match MatchEnds(s, p)
    case None => None
    case Some(e) => Some(AnchorLexemes(s[p + 4..e.j1], s[e.j1 + 1..e.j2], s[e.j2 + 1..e.j3]))
  }

  /** The text a match with these groups covers. */
  function MatchText(t: AnchorLexemes): string
  {
    "pos=" + t.x + ":" + t.y + ":" + t.z
  }

  /**
   * Declarative reading of the pattern at `p`: the line holds
   * `pos=X:Y:Z` there, each group a non-empty run, and the third run is not
   * followed by another class character (the greedy group takes it all).
   */
  ghost predicate IsMatchAt(s: string, p: nat, t: AnchorLexemes)
  {
    var i1 := p + 4;
    var j1 := i1 + |t.x|;
    var i2 := j1 + 1;
    var j2 := i2 + |t.y|;
    var i3 := j2 + 1;
    var j3 := i3 + |t.z|;
    && IsRun(t.x) && IsRun(t.y) && IsRun(t.z)
    && j3 <= |s|
    && PosAt(s, p) && s[i1..j1] == t.x && s[j1] == ':'
    && s[i2..j2] == t.y && s[j2] == ':' && s[i3..j3] == t.z
    && (j3 == |s| || !IsNumChar(s[j3]))
  }

  /** Class characters at `[i, j)`, a non-empty range. */
  predicate RunAt(s: string, i: nat, j: nat)
  {
    i < j <= |s| && forall k :: i <= k < j ==> IsNumChar(s[k])
  }

  /** `pos=` at `p`, runs ending at the colons `j1` and `j2`, and a maximal run ending at `j3`. */
  predicate Layout(s: string, p: nat, e: Ends)
  {
    && PosAt(s, p)
    && RunAt(s, p + 4, e.j1) && e.j1 < |s| && s[e.j1] == ':'
    && RunAt(s, e.j1 + 1, e.j2) && e.j2 < |s| && s[e.j2] == ':'
    && RunAt(s, e.j2 + 1, e.j3) && (e.j3 == |s| || !IsNumChar(s[e.j3]))
  }

  /** What `RunThenColon` recognises: a run, then the colon at the returned index. */
  lemma RunThenColonSound(s: string, i: nat)
    requires i <= |s| && RunThenColon(s, i).Some?
    ensures RunAt(s, i, RunThenColon(s, i).value) && s[RunThenColon(s, i).value] == ':'
  {
    RunLengthMaximal(s, i);
  }

  /** A non-empty `RunLength` is a maximal run. */
  lemma LastRunSound(s: string, i: nat)
    requires i <= |s| && RunLength(s, i) > 0
    ensures RunAt(s, i, i + RunLength(s, i))
    ensures i + RunLength(s, i) == |s| || !IsNumChar(s[i + RunLength(s, i)])
  {
    RunLengthMaximal(s, i);
  }

  /** A maximal run is as long as `RunLength` says. */
  lemma LastRunComplete(s: string, i: nat, j: nat)
    requires RunAt(s, i, j) && (j == |s| || !IsNumChar(s[j]))
    ensures RunLength(s, i) == j - i
  {
    RunLengthExact(s, i, j - i);
  }

  /** A run followed by a colon is what `RunThenColon` recognises. */
  lemma RunThenColonComplete(s: string, i: nat, j: nat)
    requires RunAt(s, i, j) && j < |s| && s[j] == ':'
    ensures RunThenColon(s, i) == Some(j)
  {
    LastRunComplete(s, i, j);
  }

  /** The positions `MatchEnds` finds are laid out as the pattern demands. */
  lemma MatchEndsSound(s: string, p: nat)
    requires p <= |s| && MatchEnds(s, p).Some?
    ensures Layout(s, p, MatchEnds(s, p).value)
  {
    var j1 := RunThenColon(s, p + 4).value;
    var j2 := RunThenColon(s, j1 + 1).value;
    RunThenColonSound(s, p + 4);
    RunThenColonSound(s, j1 + 1);
    LastRunSound(s, j2 + 1);
  }

  /** Positions laid out as the pattern demands are what `MatchEnds` finds. */
  lemma MatchEndsComplete(s: string, p: nat, e: Ends)
    requires p <= |s| && Layout(s, p, e)
    ensures MatchEnds(s, p) == Some(e)
  {
    RunThenColonComplete(s, p + 4, e.j1);
    RunThenColonComplete(s, e.j1 + 1, e.j2);
    LastRunComplete(s, e.j2 + 1, e.j3);
  }

  /** The characters between two positions of a run form a run. */
  lemma RunSlice(s: string, i: nat, j: nat)
    requires RunAt(s, i, j)
    ensures IsRun(s[i..j]) && |s[i..j]| == j - i
  {
    assert forall k :: 0 <= k < j - i ==> s[i..j][k] == s[i + k];
  }

  /** The characters of a run found in a line are class characters. */
  lemma RunInLine(s: string, i: nat, t: string)
    requires i + |t| <= |s| && s[i..i + |t|] == t && IsRun(t)
    ensures RunAt(s, i, i + |t|)
  {
    assert forall k :: i <= k < i + |t| ==> s[k] == s[i..i + |t|][k - i];
  }

  /** The groups cut out of a layout form a match of the pattern. */
  lemma IsMatchAtIntro(s: string, p: nat, e: Ends, t: AnchorLexemes)
    requires Layout(s, p, e)
    requires t == AnchorLexemes(s[p + 4..e.j1], s[e.j1 + 1..e.j2], s[e.j2 + 1..e.j3])
    ensures IsMatchAt(s, p, t)
  {
    RunSlice(s, p + 4, e.j1);
    RunSlice(s, e.j1 + 1, e.j2);
    RunSlice(s, e.j2 + 1, e.j3);
  }

  /** A match of the pattern, read back as a layout and the groups cut out of it. */
  lemma IsMatchAtElim(s: string, p: nat, t: AnchorLexemes)
    requires IsMatchAt(s, p, t)
    ensures var e := Ends(p + 4 + |t.x|, p + 4 + |t.x| + 1 + |t.y|, p + 4 + |t.x| + 1 + |t.y| + 1 + |t.z|);
      && Layout(s, p, e)
      && t == AnchorLexemes(s[p + 4..e.j1], s[e.j1 + 1..e.j2], s[e.j2 + 1..e.j3])
  {
    var j1 := p + 4 + |t.x|;
    var j2 := j1 + 1 + |t.y|;
    RunInLine(s, p + 4, t.x);
    RunInLine(s, j1 + 1, t.y);
    RunInLine(s, j2 + 1, t.z);
  }

  /** What `MatchAt` returns is a match of the pattern. */
  lemma MatchAtSound(s: string, p: nat)
    requires p <= |s| && MatchAt(s, p).Some?
    ensures IsMatchAt(s, p, MatchAt(s, p).value)
  {
    MatchEndsSound(s, p);
    IsMatchAtIntro(s, p, MatchEnds(s, p).value, MatchAt(s, p).value);
  }

  /** Text of the form `pos=X:Y:Z` at `p`, with maximal runs, is found by `MatchAt`. */
  lemma MatchAtComplete(s: string, p: nat, t: AnchorLexemes)
    requires p <= |s| && IsMatchAt(s, p, t)
    ensures MatchAt(s, p) == Some(t)
  {
    IsMatchAtElim(s, p, t);
    var e := Ends(p + 4 + |t.x|, p + 4 + |t.x| + 1 + |t.y|, p + 4 + |t.x| + 1 + |t.y| + 1 + |t.z|);
    MatchEndsComplete(s, p, e);
  }

  /** `MatchAt` finds a match exactly when the pattern matches there, and then returns its groups. */
  lemma MatchAtCorrect(s: string, p: nat, t: AnchorLexemes)
    requires p <= |s|
    ensures MatchAt(s, p) == Some(t) <==> IsMatchAt(s, p, t)
  {
    if MatchAt(s, p) == Some(t) {
      MatchAtSound(s, p);
    }
    if IsMatchAt(s, p, t) {
      MatchAtComplete(s, p, t);
    }
  }

  /** The leftmost position at or after `p` where the pattern matches, if any. */
  function FirstMatch(s: string, p: nat): (r: Option<nat>)
    requires p <= |s|
    ensures r.Some? ==> p <= r.value <= |s| && MatchAt(s, r.value).Some?
    ensures r.Some? ==> forall q :: p <= q < r.value ==> MatchAt(s, q).None?
    ensures r.None? ==> forall q :: p <= q <= |s| ==> MatchAt(s, q).None?
    decreases |s| - p
  {
    if MatchAt(s, p).Some? then Some(p)
    else if p == |s| then None
    else FirstMatch(s, p + 1)
  }

  /** `re.search`: the groups of the leftmost match in the line, or `None`. */
  function SearchPos(line: string): Option<AnchorLexemes>
  {
    match FirstMatch(line, 0)
    case None => None
    case Some(p) => MatchAt(line, p)
  }

  /** What `SearchPos` returns is a match of the pattern, at a position before which nothing matches. */
  lemma SearchPosSound(line: string)
    requires SearchPos(line).Some?
    ensures var p := FirstMatch(line, 0).value;
      && IsMatchAt(line, p, SearchPos(line).value)
      && forall q :: 0 <= q < p ==> MatchAt(line, q).None?
  {
    MatchAtSound(line, FirstMatch(line, 0).value);
  }

  /** The leftmost match of the pattern is what `SearchPos` returns. */
  lemma SearchPosComplete(line: string, p: nat, t: AnchorLexemes)
    requires p <= |line| && IsMatchAt(line, p, t)
    requires forall q :: 0 <= q < p ==> MatchAt(line, q).None?
    ensures SearchPos(line) == Some(t)
  {
    MatchAtComplete(line, p, t);
    LeftmostIsFirst(line, p);
  }

  /** A matching position with no match before it is the one `FirstMatch` finds. */
  lemma LeftmostIsFirst(s: string, p: nat)
    requires p <= |s| && MatchAt(s, p).Some?
    requires forall q :: 0 <= q < p ==> MatchAt(s, q).None?
    ensures FirstMatch(s, 0) == Some(p)
  {
  }

  /** A line contributes nothing exactly when the pattern matches at no position. */
  lemma SearchPosNone(line: string)
    ensures SearchPos(line) == None <==> forall p :: 0 <= p <= |line| ==> MatchAt(line, p).None?
  {
  }

  /** Where the groups sit inside the text of a match. */
  lemma MatchTextParts(t: AnchorLexemes)
    ensures var m := MatchText(t);
      var j1 := 4 + |t.x|;
      var j2 := j1 + 1 + |t.y|;
      && |m| == j2 + 1 + |t.z|
      && m[..4] == "pos=" && m[4..j1] == t.x && m[j1] == ':'
      && m[j1 + 1..j2] == t.y && m[j2] == ':' && m[j2 + 1..] == t.z
  {
  }

  /** A piece of a text found inside a line is found at the shifted position. */
  lemma SliceOfSlice(s: string, p: nat, m: string, a: nat, b: nat)
    requires p + |m| <= |s| && s[p..p + |m|] == m
    requires a <= b <= |m|
    ensures s[p + a..p + b] == m[a..b]
  {
    forall k | 0 <= k < b - a ensures s[p + a..p + b][k] == m[a..b][k] {
      assert s[p + a + k] == s[p..p + |m|][a + k];
    }
  }

  /** A match surrounded by other text is a match of the whole line, provided the text after it does not extend the third run. */
  lemma MatchInContext(pre: string, t: AnchorLexemes, post: string)
    requires IsRun(t.x) && IsRun(t.y) && IsRun(t.z)
    requires post == [] || !IsNumChar(post[0])
    ensures IsMatchAt(pre + MatchText(t) + post, |pre|, t)
  {
    var m := MatchText(t);
    var s := pre + m + post;
    var p := |pre|;
    var j1 := 4 + |t.x|;
    var j2 := j1 + 1 + |t.y|;
    MatchTextParts(t);
    assert s[p..p + |m|] == m;
    SliceOfSlice(s, p, m, 0, 4);
    SliceOfSlice(s, p, m, 4, j1);
    SliceOfSlice(s, p, m, j1 + 1, j2);
    SliceOfSlice(s, p, m, j2 + 1, |m|);
    assert s[p + j1] == m[j1] && s[p + j2] == m[j2];
    if post != [] {
      assert s[p + |m|] == post[0];
    }
  }

  /**
   * A line `pre + "pos=X:Y:Z" + post` whose prefix holds no `p` yields the
   * three groups; whatever follows the third run is ignored, as long as it
   * does not extend that run.
   */
  lemma SearchPosInContext(pre: string, t: AnchorLexemes, post: string)
    requires IsRun(t.x) && IsRun(t.y) && IsRun(t.z)
    requires post == [] || !IsNumChar(post[0])
    requires forall k :: 0 <= k < |pre| ==> pre[k] != 'p'
    ensures SearchPos(pre + MatchText(t) + post) == Some(t)
  {
    var s := pre + MatchText(t) + post;
    MatchInContext(pre, t, post);
    forall q | 0 <= q < |pre| ensures MatchAt(s, q).None? {
      assert s[q] == pre[q];
    }
    SearchPosComplete(s, |pre|, t);
  }

  /** The groups of the lines that matched, in input order; lines without a match contribute nothing. */
  function Somes(ms: seq<Option<AnchorLexemes>>): seq<AnchorLexemes>
  {
    if |ms| == 0 then []
    else (match ms[0] case None => [] case Some(t) => [t]) + Somes(ms[1..])
  }

  /** `Somes` distributes over concatenation. */
  lemma {:induction false} SomesAppend(a: seq<Option<AnchorLexemes>>, b: seq<Option<AnchorLexemes>>)
    ensures Somes(a + b) == Somes(a) + Somes(b)
    decreases |a|
  {
    if |a| > 0 {
      assert (a + b)[1..] == a[1..] + b;
      SomesAppend(a[1..], b);
    } else {
      assert a + b == b;
    }
  }

  /** The search result of every line, in order. */
  function Searches(lines: seq<string>): (r: seq<Option<AnchorLexemes>>)
    ensures |r| == |lines|
    ensures forall i :: 0 <= i < |lines| ==> r[i] == SearchPos(lines[i])
  {
    seq(|lines|, i requires 0 <= i < |lines| => SearchPos(lines[i]))
  }

  /** The lexemes of every line that matches, in input order. */
  function MatchedLexemes(lines: seq<string>): seq<AnchorLexemes>
  {
    Somes(Searches(lines))
  }

  /** Matching distributes over concatenation: output order follows input order. */
  lemma MatchedLexemesAppend(a: seq<string>, b: seq<string>)
    ensures MatchedLexemes(a + b) == MatchedLexemes(a) + MatchedLexemes(b)
  {
    assert Searches(a + b) == Searches(a) + Searches(b);
    SomesAppend(Searches(a), Searches(b));
  }

  /** `float()` applied to the groups of one match; `None` stands for the `ValueError` it raises. */
  function ToPoint(t: AnchorLexemes, toFloat: string -> Option<real>): Option<Point>
  {
    match (toFloat(t.x), toFloat(t.y), toFloat(t.z))
    case (Some(x), Some(y), Some(z)) => Some(Point(x, y, z))
    case _ => None
  }

  /** All matches converted, or `None` as soon as one conversion raises. */
  function ToPoints(ts: seq<AnchorLexemes>, toFloat: string -> Option<real>): (r: Option<seq<Point>>)
    ensures r.Some? <==> forall i :: 0 <= i < |ts| ==> ToPoint(ts[i], toFloat).Some?
    ensures r.Some? ==> |r.value| == |ts|
    ensures r.Some? ==> forall i :: 0 <= i < |ts| ==> Some(r.value[i]) == ToPoint(ts[i], toFloat)
  {
    if |ts| == 0 then Some([])
    else
      var head := ToPoint(ts[0], toFloat);
      var tail := ToPoints(ts[1..], toFloat);
      if head.Some? && tail.Some? then Some([head.value] + tail.value)
      else
        assert head.None? || ToPoint(ts[1..][FirstFailure(ts[1..], toFloat)], toFloat).None?;
        None
  }

  /** Index of some lexeme triple whose conversion fails, when one does. */
  function FirstFailure(ts: seq<AnchorLexemes>, toFloat: string -> Option<real>): (i: nat)
    requires exists i :: 0 <= i < |ts| && ToPoint(ts[i], toFloat).None?
    ensures i < |ts| && ToPoint(ts[i], toFloat).None?
  {
    if ToPoint(ts[0], toFloat).None? then 0
    else
      assert exists i :: 0 <= i < |ts[1..]| && ToPoint(ts[1..][i], toFloat).None? by {
        var i :| 0 <= i < |ts| && ToPoint(ts[i], toFloat).None?;
        assert ts[1..][i - 1] == ts[i];
      }
      1 + FirstFailure(ts[1..], toFloat)
  }

  /** Converting one more triple extends the points, or fails. */
  lemma ToPointsSnoc(ts: seq<AnchorLexemes>, t: AnchorLexemes, toFloat: string -> Option<real>)
    ensures ToPoints(ts + [t], toFloat) ==
      if ToPoints(ts, toFloat).Some? && ToPoint(t, toFloat).Some?
      then Some(ToPoints(ts, toFloat).value + [ToPoint(t, toFloat).value])
      else None
  {
    var u := ts + [t];
    assert u[|ts|] == t;
    assert forall i :: 0 <= i < |ts| ==> u[i] == ts[i];
    if ToPoints(ts, toFloat).Some? && ToPoint(t, toFloat).Some? {
      forall i | 0 <= i < |u| ensures ToPoint(u[i], toFloat).Some? {
        if i < |ts| {
          assert u[i] == ts[i];
        }
      }
      var r := ToPoints(u, toFloat).value;
      var e := ToPoints(ts, toFloat).value + [ToPoint(t, toFloat).value];
      assert |r| == |e|;
      forall i | 0 <= i < |r| ensures r[i] == e[i] {
        assert Some(r[i]) == ToPoint(u[i], toFloat);
        if i < |ts| {
          assert Some(e[i]) == ToPoint(ts[i], toFloat);
        }
      }
      assert r == e;
    } else if ToPoint(t, toFloat).None? {
    } else {
      var i := FirstFailure(ts, toFloat);
      assert u[i] == ts[i];
    }
  }

  /** A failed conversion in a prefix fails the whole list. */
  lemma ToPointsPrefixFails(a: seq<AnchorLexemes>, b: seq<AnchorLexemes>, toFloat: string -> Option<real>)
    requires ToPoints(a, toFloat).None?
    ensures ToPoints(a + b, toFloat).None?
  {
    var i := FirstFailure(a, toFloat);
    assert (a + b)[i] == a[i];
  }

  /** A line with a match contributes its groups, a line without one contributes nothing. */
  lemma MatchedLexemesSingle(line: string)
    ensures MatchedLexemes([line]) == match SearchPos(line) case None => [] case Some(t) => [t]
  {
    var m := SearchPos(line);
    assert Searches([line]) == [m];
    assert [m][1..] == [];
    assert Somes([m]) == (match m case None => [] case Some(t) => [t]) + Somes([]);
  }

  /** The groups collected from one more search result. */
  lemma SomesSnoc(ms: seq<Option<AnchorLexemes>>, i: nat)
    requires i < |ms|
    ensures Somes(ms[..i + 1]) == Somes(ms[..i]) + (match ms[i] case None => [] case Some(t) => [t])
  {
    assert ms[..i + 1] == ms[..i] + [ms[i]];
    SomesAppend(ms[..i], [ms[i]]);
    assert [ms[i]][1..] == [];
  }

  /** A failed conversion at search result `i` fails the whole list. */
  lemma ParseFails(ms: seq<Option<AnchorLexemes>>, i: nat, toFloat: string -> Option<real>)
    requires i < |ms| && ms[i].Some? && ToPoint(ms[i].value, toFloat).None?
    ensures ToPoints(Somes(ms), toFloat).None?
  {
    SomesSnoc(ms, i);
    ToPointsSnoc(Somes(ms[..i]), ms[i].value, toFloat);
    assert ms[..i + 1] + ms[i + 1..] == ms;
    SomesAppend(ms[..i + 1], ms[i + 1..]);
    ToPointsPrefixFails(Somes(ms[..i + 1]), Somes(ms[i + 1..]), toFloat);
  }

  /**
   * `parse_anchor_positions`: one point per matching line, in order. `None`
   * means `float()` raised on some captured group.
   */
  method ParseAnchorPositions(lines: seq<string>, toFloat: string -> Option<real>)
    returns (positions: Option<seq<Point>>)
    ensures positions == ToPoints(MatchedLexemes(lines), toFloat)
  {
    ghost var ms := Searches(lines);
    var acc: seq<Point> := [];
    var i := 0;
    while i < |lines|
      invariant 0 <= i <= |lines|
      invariant ToPoints(Somes(ms[..i]), toFloat) == Some(acc)
    {
      var m := SearchPos(lines[i]);
      assert m == ms[i];
      SomesSnoc(ms, i);
      if m.Some? {
        var pt := ToPoint(m.value, toFloat);
        ToPointsSnoc(Somes(ms[..i]), m.value, toFloat);
        if pt.None? {
          ParseFails(ms, i, toFloat);
          return None;
        }
        acc := acc + [pt.value];
      } else {
        assert Somes(ms[..i]) + [] == Somes(ms[..i]);
      }
      i := i + 1;
    }
    assert ms[..i] == ms;
    positions := Some(acc);
  }

  // ---------------------------------------------------------------------
  // Enumeration block: DWM1001.read_dwm_messages
  // ---------------------------------------------------------------------

  /** The sentinel that ends an enumeration block. */
  const InfoTerminator := "INF] \r\n"

  predicate IsTerminator(line: string) { EndsWith(line, InfoTerminator) }

  /** Index of the first terminator line, or `|lines|` when there is none. */
  function TerminatorIndex(lines: seq<string>): (k: nat)
    ensures k <= |lines|
    ensures forall i :: 0 <= i < k ==> !IsTerminator(lines[i])
    ensures k < |lines| ==> IsTerminator(lines[k])
  {
    if |lines| == 0 || IsTerminator(lines[0]) then 0
    else 1 + TerminatorIndex(lines[1..])
  }

  /** The lines `read_dwm_messages` returns: the stripped lines strictly before the first terminator. */
  function ResponseLines(lines: seq<string>): (r: seq<string>)
    ensures |r| == TerminatorIndex(lines)
    ensures forall i :: 0 <= i < |r| ==> r[i] == Strip(lines[i]) && !IsTerminator(lines[i])
  {
    seq(TerminatorIndex(lines), i requires 0 <= i < TerminatorIndex(lines) => Strip(lines[i]))
  }

  /** The stripped lines collected up to the first terminator are the response. */
  lemma ResponseLinesUpTo(lines: seq<string>, response: seq<string>, i: nat)
    requires i <= |lines| && TerminatorIndex(lines) == i && |response| == i
    requires forall j :: 0 <= j < i ==> response[j] == Strip(lines[j])
    ensures response == ResponseLines(lines)
  {
  }

  /**
   * `read_dwm_messages` over the lines the device delivers. `consumed` counts
   * the lines read, the terminator included. When `lines` holds no
   * terminator, `terminated` is false: the device read would then block for
   * the next line.
   */
  method ReadDwmMessages(lines: seq<string>) returns (response: seq<string>, consumed: nat, terminated: bool)
    ensures terminated <==> exists i :: 0 <= i < |lines| && IsTerminator(lines[i])
    ensures terminated ==> consumed == TerminatorIndex(lines) + 1 && IsTerminator(lines[consumed - 1])
    ensures !terminated ==> consumed == |lines|
    ensures response == ResponseLines(lines)
  {
    response := [];
    var i := 0;
    while i < |lines|
      invariant 0 <= i <= |lines|
      invariant forall j :: 0 <= j < i ==> !IsTerminator(lines[j])
      invariant |response| == i
      invariant forall j :: 0 <= j < i ==> response[j] == Strip(lines[j])
    {
      if IsTerminator(lines[i]) {
        ResponseLinesUpTo(lines, response, i);
        return response, i + 1, true;
      }
      response := response + [Strip(lines[i])];
      i := i + 1;
    }
    ResponseLinesUpTo(lines, response, i);
    return response, i, false;
  }

  // ---------------------------------------------------------------------
  // Continuous mode: parse_tag_position
  // ---------------------------------------------------------------------

  /**
   * The outcome of `parse_tag_position`: `NoTag` is its `None` return, `Tag`
   * the three raw coordinate fields, and `IndexFault` the `IndexError` raised
   * when a line starting with `POS` has too few fields for the `or` chain.
   */
  datatype TagParse = NoTag | Tag(x: string, y: string, z: string) | IndexFault

  /** Shortest raw line that is parsed at all. */
  const MinTagLineLength := 20

  /** The comma-separated fields of a line, after stripping line breaks. */
  function Fields(line: string): (f: seq<string>)
    ensures |f| >= 1
  {
    Split(Strip(line), ',')
  }

  function ParseTagPosition(line: string): TagParse
  {
    if |line| == 0 then NoTag
    else if |line| < MinTagLineLength then NoTag
    else
      var p := Fields(line);
      if p[0] != "POS" then NoTag
      else if |p| <= 3 then IndexFault
      else if p[3] == "nan" then NoTag
      else if |p| <= 4 then IndexFault
      else if p[4] == "nan" then NoTag
      else if |p| <= 5 then IndexFault
      else if p[5] == "nan" then NoTag
      else Tag(p[3], p[4], p[5])
  }

  /** Empty lines and raw lines shorter than 20 bytes (line breaks included) are rejected. */
  lemma TagShortRejected(line: string)
    requires |line| < MinTagLineLength
    ensures ParseTagPosition(line) == NoTag
  {
  }

  /**
   * A line is accepted exactly when it has at least 20 bytes, field 0 is
   * `POS`, it has six fields and none of fields 3..5 is `nan`; the result is
   * then those three fields, unconverted.
   */
  lemma TagAccepted(line: string)
    ensures ParseTagPosition(line).Tag? <==>
      |line| >= MinTagLineLength && |Fields(line)| >= 6 && Fields(line)[0] == "POS" &&
      Fields(line)[3] != "nan" && Fields(line)[4] != "nan" && Fields(line)[5] != "nan"
    ensures ParseTagPosition(line).Tag? ==>
      ParseTagPosition(line) == Tag(Fields(line)[3], Fields(line)[4], Fields(line)[5])
  {
  }

  /**
   * The `or` chain is evaluated left to right: a `POS` line raises `IndexError`
   * exactly when it runs out of fields before a `nan` field ends the chain.
   */
  lemma TagIndexFault(line: string)
    ensures ParseTagPosition(line) == IndexFault <==>
      |line| >= MinTagLineLength && Fields(line)[0] == "POS" &&
      (|Fields(line)| <= 3 ||
       (Fields(line)[3] != "nan" && |Fields(line)| <= 4) ||
       (Fields(line)[3] != "nan" && Fields(line)[4] != "nan" && |Fields(line)| <= 5))
  {
  }

  /** Joining line-break-free fields with a comma gives a line-break-free text. */
  lemma {:induction false} JoinNoLineBreak(fields: seq<string>)
    requires |fields| >= 1
    requires forall i, k :: 0 <= i < |fields| && 0 <= k < |fields[i]| ==> !IsLineBreak(fields[i][k])
    ensures forall k :: 0 <= k < |Join(fields, ',')| ==> !IsLineBreak(Join(fields, ',')[k])
    decreases |fields|
  {
    if |fields| > 1 {
      JoinNoLineBreak(fields[1..]);
      var rest := Join(fields[1..], ',');
      var j := Join(fields, ',');
      assert j == fields[0] + [','] + rest;
      forall k | 0 <= k < |j| ensures !IsLineBreak(j[k]) {
        if k < |fields[0]| {
          assert j[k] == fields[0][k];
        } else if k > |fields[0]| {
          assert j[k] == rest[k - |fields[0]| - 1];
        }
      }
    }
  }

  /** Stripping removes a final CR LF and nothing else from a text without line breaks. */
  lemma StripWithEol(body: string, eol: string)
    requires eol == "" || eol == "\r\n"
    requires forall k :: 0 <= k < |body| ==> !IsLineBreak(body[k])
    ensures Strip(body + eol) == body
  {
    var s := body + eol;
    assert TrimEnd(body) == body;
    assert TrimEnd(s) == body by {
      if eol == "\r\n" {
        assert s[|s| - 1] == '\n' && s[..|s| - 1] == body + "\r";
        assert (body + "\r")[|body|] == '\r' && (body + "\r")[..|body|] == body;
        assert TrimEnd(s) == TrimEnd(body + "\r") == TrimEnd(body);
      } else {
        assert s == body;
      }
    }
    if body != [] {
      assert TrimStart(s) == s;
    }
  }

  /** The fields of a line assembled from comma- and line-break-free fields, optionally ended by CR LF, are those fields. */
  lemma FieldsOfJoin(fs: seq<string>, eol: string)
    requires |fs| >= 1
    requires forall i :: 0 <= i < |fs| ==> ',' !in fs[i]
    requires forall i, k :: 0 <= i < |fs| && 0 <= k < |fs[i]| ==> !IsLineBreak(fs[i][k])
    requires eol == "" || eol == "\r\n"
    ensures Fields(Join(fs, ',') + eol) == fs
  {
    JoinNoLineBreak(fs);
    StripWithEol(Join(fs, ','), eol);
    SplitJoin(fs, ',');
  }

  /**
   * Reading a line assembled from fields gives those fields back: a line of at
   * least 20 bytes made of `POS`, two fields, the three coordinates and more
   * fields, optionally followed by CR LF, parses to the coordinates.
   */
  lemma TagLineRoundTrip(a: string, b: string, x: string, y: string, z: string, more: seq<string>, eol: string)
    requires forall f, c :: f in [a, b, x, y, z] + more && c in f ==> c != ',' && !IsLineBreak(c)
    requires x != "nan" && y != "nan" && z != "nan"
    requires eol == "" || eol == "\r\n"
    requires |Join(["POS", a, b, x, y, z] + more, ',')| + |eol| >= MinTagLineLength
    ensures ParseTagPosition(Join(["POS", a, b, x, y, z] + more, ',') + eol) == Tag(x, y, z)
  {
    FieldsFree(a, b, x, y, z, more);
    FieldsOfJoin(["POS", a, b, x, y, z] + more, eol);
  }

  /** A 19-byte `POS` line is rejected by the length check. */
  lemma TagShortLineRejected()
    ensures ParseTagPosition("POS,0,0,1.0,2.0,3.0") == NoTag
  {
    assert |"POS,0,0,1.0,2.0,3.0"| == 19;
  }

  /**
   * Length is taken before line breaks are stripped: a valid `POS` line of 18
   * or 19 bytes is rejected, and the same line followed by CR LF is accepted.
   */
  lemma TagLengthCountsLineBreaks(a: string, b: string, x: string, y: string, z: string, more: seq<string>)
    requires forall f, c :: f in [a, b, x, y, z] + more && c in f ==> c != ',' && !IsLineBreak(c)
    requires x != "nan" && y != "nan" && z != "nan"
    requires 18 <= |Join(["POS", a, b, x, y, z] + more, ',')| < MinTagLineLength
    ensures ParseTagPosition(Join(["POS", a, b, x, y, z] + more, ',')) == NoTag
    ensures ParseTagPosition(Join(["POS", a, b, x, y, z] + more, ',') + "\r\n") == Tag(x, y, z)
  {
    TagLineRoundTrip(a, b, x, y, z, more, "\r\n");
  }

  /** A `POS` line with six or more fields is rejected when any of its three coordinates is `nan`. */
  lemma TagNanRejected(a: string, b: string, x: string, y: string, z: string, more: seq<string>, eol: string)
    requires forall f, c :: f in [a, b, x, y, z] + more && c in f ==> c != ',' && !IsLineBreak(c)
    requires x == "nan" || y == "nan" || z == "nan"
    requires eol == "" || eol == "\r\n"
    ensures ParseTagPosition(Join(["POS", a, b, x, y, z] + more, ',') + eol) == NoTag
  {
    var fs := ["POS", a, b, x, y, z] + more;
    FieldsFree(a, b, x, y, z, more);
    FieldsOfJoin(fs, eol);
  }

  lemma FieldsFree(a: string, b: string, x: string, y: string, z: string, more: seq<string>)
    requires forall f, c :: f in [a, b, x, y, z] + more && c in f ==> c != ',' && !IsLineBreak(c)
    ensures var fs := ["POS", a, b, x, y, z] + more;
      && (forall i :: 0 <= i < |fs| ==> ',' !in fs[i])
      && (forall i, k :: 0 <= i < |fs| && 0 <= k < |fs[i]| ==> !IsLineBreak(fs[i][k]))
  {
    var fs := ["POS", a, b, x, y, z] + more;
    forall i | 0 <= i < |fs| ensures ',' !in fs[i] && forall k :: 0 <= k < |fs[i]| ==> !IsLineBreak(fs[i][k]) {
      if i > 0 {
        assert fs[i] in [a, b, x, y, z] + more;
        assert forall k :: 0 <= k < |fs[i]| ==> fs[i][k] in fs[i];
      }
    }
  }
}
