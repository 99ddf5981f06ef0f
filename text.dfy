/**
 * The few Python `str` operations the report parsers rely on: `split` with a
 * one-character separator, `strip('\r\n')` and `endswith`.
 */
module Text {

  /** True of the characters `strip('\r\n')` removes. */
  predicate IsLineBreak(c: char) { c == '\r' || c == '\n' }

  /** `sep.join(fields)`. */
  function Join(fields: seq<string>, sep: char): string
    requires |fields| >= 1
  {
    if |fields| == 1 then fields[0] else fields[0] + [sep] + Join(fields[1..], sep)
  }

  /**
   * `s.split(sep)`: the pieces between separators, empty ones included, so
   * that there is always at least one field.
   */
  function Split(s: string, sep: char): (fields: seq<string>)
    ensures |fields| >= 1
    decreases |s|
  {
    if |s| == 0 then [""]
    else
      var rest := Split(s[1..], sep);
      if s[0] == sep then [""] + rest
      else [[s[0]] + rest[0]] + rest[1..]
  }

  /** No field of a split contains the separator. */
  lemma {:induction false} SplitFieldsSeparatorFree(s: string, sep: char)
    ensures forall i :: 0 <= i < |Split(s, sep)| ==> sep !in Split(s, sep)[i]
    decreases |s|
  {
    if |s| > 0 {
      SplitFieldsSeparatorFree(s[1..], sep);
    }
  }

  lemma {:induction false} JoinConsChar(c: char, fields: seq<string>, sep: char)
    requires |fields| >= 1
    ensures Join([[c] + fields[0]] + fields[1..], sep) == [c] + Join(fields, sep)
  {
    var g := [[c] + fields[0]] + fields[1..];
    assert g[1..] == fields[1..];
  }

  /** Joining the fields of a split gives back the original text. */
  lemma {:induction false} JoinSplit(s: string, sep: char)
    ensures Join(Split(s, sep), sep) == s
    decreases |s|
  {
    if |s| > 0 {
      var rest := Split(s[1..], sep);
      JoinSplit(s[1..], sep);
      if s[0] == sep {
        assert ([""] + rest)[1..] == rest;
        assert s == [sep] + s[1..];
      } else {
        JoinConsChar(s[0], rest, sep);
        assert s == [s[0]] + s[1..];
      }
    }
  }

  /** A separator-free prefix followed by the separator is split off as the first field. */
  lemma {:induction false} SplitAfterField(f: string, t: string, sep: char)
    requires sep !in f
    ensures Split(f + [sep] + t, sep) == [f] + Split(t, sep)
    decreases |f|
  {
    var s := f + [sep] + t;
    if |f| == 0 {
      assert s[1..] == t;
    } else {
      assert s[1..] == f[1..] + [sep] + t;
      SplitAfterField(f[1..], t, sep);
      assert [f[0]] + f[1..] == f;
    }
  }

  /** A separator-free text is a single field. */
  lemma {:induction false} SplitField(f: string, sep: char)
    requires sep !in f
    ensures Split(f, sep) == [f]
    decreases |f|
  {
    if |f| > 0 {
      SplitField(f[1..], sep);
      assert [f[0]] + f[1..] == f;
    }
  }

  /** Splitting joined separator-free fields gives back exactly those fields. */
  lemma {:induction false} SplitJoin(fields: seq<string>, sep: char)
    requires |fields| >= 1
    requires forall i :: 0 <= i < |fields| ==> sep !in fields[i]
    ensures Split(Join(fields, sep), sep) == fields
    decreases |fields|
  {
    if |fields| == 1 {
      SplitField(fields[0], sep);
    } else {
      SplitJoin(fields[1..], sep);
      SplitAfterField(fields[0], Join(fields[1..], sep), sep);
      assert [fields[0]] + fields[1..] == fields;
    }
  }

  /** `s.lstrip('\r\n')`: drops the leading line-break characters. */
  function TrimStart(s: string): (r: string)
    ensures |r| <= |s| && r == s[|s| - |r|..]
    ensures forall i :: 0 <= i < |s| - |r| ==> IsLineBreak(s[i])
    ensures r == [] || !IsLineBreak(r[0])
    decreases |s|
  {
    if |s| > 0 && IsLineBreak(s[0]) then TrimStart(s[1..]) else s
  }

  /** `s.rstrip('\r\n')`: drops the trailing line-break characters. */
  function TrimEnd(s: string): (r: string)
    ensures |r| <= |s| && r == s[..|r|]
    ensures forall i :: |r| <= i < |s| ==> IsLineBreak(s[i])
    ensures r == [] || !IsLineBreak(r[|r| - 1])
    decreases |s|
  {
    if |s| > 0 && IsLineBreak(s[|s| - 1]) then TrimEnd(s[..|s| - 1]) else s
  }

  /** `s.strip('\r\n')`: drops line-break characters at both ends and nothing else. */
  function Strip(s: string): (r: string)
    ensures |r| <= |s|
    ensures r == [] || (!IsLineBreak(r[0]) && !IsLineBreak(r[|r| - 1]))
  {
    TrimEnd(TrimStart(s))
  }

  /**
   * What stripping keeps is one contiguous slice of the text, starting where
   * `lstrip` stops: its `k`-th character is the text's `a + k`-th.
   */
  lemma StripIsSlice(s: string)
    ensures var a := |s| - |TrimStart(s)|;
      && a + |Strip(s)| <= |s|
      && forall k :: 0 <= k < |Strip(s)| ==> Strip(s)[k] == s[a + k]
  {
    var t := TrimStart(s);
    var r := TrimEnd(t);
    assert Strip(s) == r;
    var a := |s| - |t|;
    forall k | 0 <= k < |r| ensures r[k] == s[a + k] {
      assert r[k] == t[k];
    }
  }

  /** Everything before and after the slice that stripping keeps is a line break. */
  lemma StripDropsLineBreaks(s: string)
    ensures var a := |s| - |TrimStart(s)|;
      && (forall i :: 0 <= i < a ==> IsLineBreak(s[i]))
      && (forall i :: a + |Strip(s)| <= i < |s| ==> IsLineBreak(s[i]))
  {
    var t := TrimStart(s);
    var r := TrimEnd(t);
    assert Strip(s) == r;
    TailLineBreaks(s, t, |r|);
  }

  /** Line breaks from index `n` of a suffix `t` of `s` are line breaks of `s`. */
  lemma TailLineBreaks(s: string, t: string, n: nat)
    requires |t| <= |s| && t == s[|s| - |t|..] && n <= |t|
    requires forall j :: n <= j < |t| ==> IsLineBreak(t[j])
    ensures forall i :: |s| - |t| + n <= i < |s| ==> IsLineBreak(s[i])
  {
    var a := |s| - |t|;
    forall i | a + n <= i < |s| ensures IsLineBreak(s[i]) {
      assert s[i] == t[i - a];
    }
  }

  /** Stripping removes line breaks only: every other character of the text is kept. */
  lemma StripKeepsText(s: string)
    ensures forall c :: c in s && !IsLineBreak(c) ==> c in Strip(s)
  {
    var t := TrimStart(s);
    var r := TrimEnd(t);
    forall c | c in s && !IsLineBreak(c) ensures c in r {
      var i :| 0 <= i < |s| && s[i] == c;
      var k := i - (|s| - |t|);
      assert t[k] == c;
      assert r[k] == c;
    }
  }

  /** Text that neither starts nor ends with a line break is left as it is. */
  lemma StripUnchanged(s: string)
    requires s == [] || (!IsLineBreak(s[0]) && !IsLineBreak(s[|s| - 1]))
    ensures Strip(s) == s
  {
  }

  /** `s.endswith(suffix)`. */
  predicate EndsWith(s: string, suffix: string)
  {
    |suffix| <= |s| && s[|s| - |suffix|..] == suffix
  }
}
