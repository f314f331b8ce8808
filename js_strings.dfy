/** The JavaScript string operations the timing-file parser relies on:
    `trim`, `replaceAll(/ +/g, " ")` and `split` on one character. */
module JsStrings {

  /** The characters `trim` removes: JavaScript's WhiteSpace (tab, vertical
      tab, form feed, no-break space, byte order mark and every space
      separator) and LineTerminator characters. */
  predicate IsWhitespace(c: char) {
    || c == ' ' || c == '\t' || c == '\n' || c == '\r' || c == '\U{B}' || c == '\U{C}'
    || c == '\U{A0}' || c == '\U{1680}' || ('\U{2000}' <= c <= '\U{200A}')
    || c == '\U{2028}' || c == '\U{2029}' || c == '\U{202F}' || c == '\U{205F}'
    || c == '\U{3000}' || c == '\U{FEFF}'
  }

  /** The longest suffix of `s` that does not start with whitespace. */
  function TrimStart(s: string): (r: string)
    ensures |r| <= |s|
  {
    if s != [] && IsWhitespace(s[0]) then TrimStart(s[1..]) else s
  }

  /** `TrimStart` drops whitespace only, and all of the leading whitespace. */
  lemma {:induction false} TrimStartDropsWhitespace(s: string)
    ensures TrimStart(s) == s[|s| - |TrimStart(s)|..]
    ensures forall k :: 0 <= k < |s| - |TrimStart(s)| ==> IsWhitespace(s[k])
    ensures TrimStart(s) == [] || !IsWhitespace(TrimStart(s)[0])
  {
    if s != [] && IsWhitespace(s[0]) {
      TrimStartDropsWhitespace(s[1..]);
      forall k | 1 <= k < |s| - |TrimStart(s)|
        ensures IsWhitespace(s[k])
      {
        assert s[k] == s[1..][k - 1];
      }
    }
  }

  /** The longest prefix of `s` that does not end with whitespace. */
  function TrimEnd(s: string): (r: string)
    ensures |r| <= |s|
  {
    if s != [] && IsWhitespace(s[|s| - 1]) then TrimEnd(s[..|s| - 1]) else s
  }

  /** `TrimEnd` drops whitespace only, and all of the trailing whitespace. */
  lemma {:induction false} TrimEndDropsWhitespace(s: string)
    ensures TrimEnd(s) == s[..|TrimEnd(s)|]
    ensures forall k :: |TrimEnd(s)| <= k < |s| ==> IsWhitespace(s[k])
    ensures TrimEnd(s) == [] || !IsWhitespace(TrimEnd(s)[|TrimEnd(s)| - 1])
  {
    if s != [] && IsWhitespace(s[|s| - 1]) {
      var init := s[..|s| - 1];
      TrimEndDropsWhitespace(init);
      assert init[..|TrimEnd(s)|] == s[..|TrimEnd(s)|];
      forall k | |TrimEnd(s)| <= k < |s| - 1
        ensures IsWhitespace(s[k])
      {
        assert s[k] == init[k];
      }
    }
  }

  /** `s.trim()` */
  function Trim(s: string): (r: string)
    ensures |r| <= |s|
  {
    TrimEnd(TrimStart(s))
  }

  /** Neither end of a trimmed string is whitespace. */
  lemma TrimEnds(s: string)
    ensures Trim(s) == [] || (!IsWhitespace(Trim(s)[0]) && !IsWhitespace(Trim(s)[|Trim(s)| - 1]))
  {
    var t := TrimStart(s);
    TrimStartDropsWhitespace(s);
    TrimEndDropsWhitespace(t);
    if Trim(s) != [] {
      assert Trim(s)[0] == t[0];
    }
  }

  /** Trimming drops only whitespace, at both ends, and keeps the middle of
      the string as it was: `Trim(s)` starts at index `i` of `s`. */
  lemma TrimSpan(s: string) returns (i: nat)
    ensures i + |Trim(s)| <= |s| && s[i..i + |Trim(s)|] == Trim(s)
    ensures forall k :: 0 <= k < i ==> IsWhitespace(s[k])
    ensures forall k :: i + |Trim(s)| <= k < |s| ==> IsWhitespace(s[k])
  {
    var t := TrimStart(s);
    TrimStartDropsWhitespace(s);
    TrimEndDropsWhitespace(t);
    var r := TrimEnd(t);
    i := |s| - |t|;
    assert s[i..i + |r|] == r;
    assert forall k :: i + |r| <= k < |s| ==> s[k] == t[k - i];
  }

  /** The string without its leading U+0020 characters. */
  function DropSpaces(s: string): (r: string)
    ensures |r| <= |s|
  {
    if s != [] && s[0] == ' ' then DropSpaces(s[1..]) else s
  }

  /** Only leading spaces are dropped, and all of them. */
  lemma {:induction false} DropSpacesShape(s: string)
    ensures DropSpaces(s) == s[|s| - |DropSpaces(s)|..]
    ensures forall k :: 0 <= k < |s| - |DropSpaces(s)| ==> s[k] == ' '
    ensures DropSpaces(s) == [] || DropSpaces(s)[0] != ' '
  {
    if s != [] && s[0] == ' ' {
      DropSpacesShape(s[1..]);
      forall k | 1 <= k < |s| - |DropSpaces(s)|
        ensures s[k] == ' '
      {
        assert s[k] == s[1..][k - 1];
      }
    }
  }

  /** The string with every U+0020 removed: what a run of spaces cannot change. */
  function WithoutSpaces(s: string): string {
    if s == [] then [] else (if s[0] == ' ' then [] else [s[0]]) + WithoutSpaces(s[1..])
  }

  predicate NoDoubleSpace(s: string) {
    forall k :: 0 <= k < |s| - 1 ==> !(s[k] == ' ' && s[k + 1] == ' ')
  }

  lemma {:induction false} DropSpacesKeepsContent(s: string)
    ensures WithoutSpaces(DropSpaces(s)) == WithoutSpaces(s)
  {
    if s != [] && s[0] == ' ' {
      DropSpacesKeepsContent(s[1..]);
    }
  }

  /** `s.replaceAll(/ +/g, " ")`: every run of spaces becomes one space. */
  function CollapseSpaces(s: string): (r: string)
    ensures |r| <= |s|
    decreases |s|
  {
    if s == [] then []
    else if s[0] == ' ' then " " + CollapseSpaces(DropSpaces(s))
    else [s[0]] + CollapseSpaces(s[1..])
  }

  /** No two spaces are left side by side; the result is empty, starts with a
      space, or ends with a given non-space character exactly as the input does. */
  lemma {:induction false} CollapseShape(s: string)
    ensures NoDoubleSpace(CollapseSpaces(s))
    ensures CollapseSpaces(s) == [] <==> s == []
    ensures (CollapseSpaces(s) != [] && CollapseSpaces(s)[0] == ' ') <==> (s != [] && s[0] == ' ')
    ensures s != [] && s[|s| - 1] != ' ' ==> CollapseSpaces(s)[|CollapseSpaces(s)| - 1] == s[|s| - 1]
    decreases |s|
  {
    if s != [] {
      var rest := if s[0] == ' ' then DropSpaces(s) else s[1..];
      DropSpacesShape(s);
      CollapseShape(rest);
      var c := CollapseSpaces(rest);
      var r := CollapseSpaces(s);
      assert r == [s[0]] + c;
      forall k | 0 <= k < |r| - 1
        ensures !(r[k] == ' ' && r[k + 1] == ' ')
      {
        if k > 0 {
          assert r[k] == c[k - 1] && r[k + 1] == c[k];
        }
      }
      if s[|s| - 1] != ' ' {
        if rest == [] {
          // only a space could have been dropped
          assert s[0] != ' ' ==> |s| == 1;
        } else {
          assert rest[|rest| - 1] == s[|s| - 1];
        }
      }
    }
  }

  /** Collapsing changes nothing but the lengths of the runs of spaces. */
  lemma {:induction false} CollapseKeepsContent(s: string)
    ensures WithoutSpaces(CollapseSpaces(s)) == WithoutSpaces(s)
    decreases |s|
  {
    if s != [] {
      if s[0] == ' ' {
        DropSpacesKeepsContent(s);
        CollapseKeepsContent(DropSpaces(s));
      } else {
        CollapseKeepsContent(s[1..]);
      }
    }
  }

  /** A string without double spaces is left as it is. */
  lemma {:induction false} CollapseSingleSpaced(s: string)
    requires NoDoubleSpace(s)
    ensures CollapseSpaces(s) == s
    decreases |s|
  {
    if s != [] {
      var rest := s[1..];
      assert NoDoubleSpace(rest) by {
        forall k | 0 <= k < |rest| - 1
          ensures !(rest[k] == ' ' && rest[k + 1] == ' ')
        {
          assert rest[k] == s[k + 1] && rest[k + 1] == s[k + 2];
        }
      }
      CollapseSingleSpaced(rest);
      if s[0] == ' ' {
        assert rest == [] || rest[0] != ' ' by {
          if rest != [] { assert rest[0] == s[1]; }
        }
        assert DropSpaces(rest) == rest;
        assert CollapseSpaces(s) == " " + CollapseSpaces(rest);
      } else {
        assert CollapseSpaces(s) == [s[0]] + CollapseSpaces(rest);
      }
      assert s == [s[0]] + rest;
    }
  }

  /** A whole run of spaces is dropped, and nothing after it. */
  lemma {:induction false} DropSpacesRun(run: string, b: string)
    requires forall k :: 0 <= k < |run| ==> run[k] == ' '
    requires b == [] || b[0] != ' '
    ensures DropSpaces(run + b) == b
    decreases |run|
  {
    if run == [] {
      assert run + b == b;
    } else {
      assert (run + b)[1..] == run[1..] + b;
      DropSpacesRun(run[1..], b);
    }
  }

  /** Leading spaces of a string that ends in something else are dropped the
      same way whatever follows it. */
  lemma {:induction false} DropSpacesAppend(a: string, t: string)
    requires a != [] && a[|a| - 1] != ' '
    ensures DropSpaces(a + t) == DropSpaces(a) + t
    decreases |a|
  {
    if a[0] == ' ' {
      assert (a + t)[1..] == a[1..] + t;
      DropSpacesAppend(a[1..], t);
    }
  }

  /** Regrouping a concatenation. */
  lemma Regroup(head: string, c: string, tail: string, whole: string, part: string)
    requires whole == head + (c + tail) && part == head + c
    ensures whole == part + tail
  {
  }

  /** One unfolding of `CollapseSpaces` at a leading space, on a concatenation. */
  lemma CollapseLeadingRun(a: string, t: string, rest: string, tail: string)
    requires a != [] && a[0] == ' '
    requires DropSpaces(a) == rest && DropSpaces(a + t) == rest + t
    requires CollapseSpaces(rest + t) == CollapseSpaces(rest) + tail
    ensures CollapseSpaces(a + t) == CollapseSpaces(a) + tail
  {
    var s := a + t;
    assert s != [] && s[0] == ' ';
    Regroup(" ", CollapseSpaces(rest), tail, CollapseSpaces(s), CollapseSpaces(a));
  }

  /** One unfolding of `CollapseSpaces` at a leading non-space, on a concatenation. */
  lemma CollapseLeadingChar(a: string, t: string, tail: string)
    requires a != [] && a[0] != ' '
    requires CollapseSpaces(a[1..] + t) == CollapseSpaces(a[1..]) + tail
    ensures CollapseSpaces(a + t) == CollapseSpaces(a) + tail
  {
    var s := a + t;
    assert s != [] && s[0] == a[0] && s[1..] == a[1..] + t;
    Regroup([a[0]], CollapseSpaces(a[1..]), tail, CollapseSpaces(s), CollapseSpaces(a));
  }

  /** The step of `CollapseRun`, on `t == run + b` and `tail == " " + CollapseSpaces(b)`. */
  lemma {:induction false} CollapseRunTail(a: string, run: string, b: string)
    requires run != [] && forall k :: 0 <= k < |run| ==> run[k] == ' '
    requires a == [] || a[|a| - 1] != ' '
    requires b == [] || b[0] != ' '
    ensures CollapseSpaces(a + (run + b)) == CollapseSpaces(a) + (" " + CollapseSpaces(b))
    decreases |a|
  {
    var t := run + b;
    var tail := " " + CollapseSpaces(b);
    if a == [] {
      assert a + t == t && t != [] && t[0] == ' ';
      DropSpacesRun(run, b);
      Regroup([], [], tail, CollapseSpaces(t), CollapseSpaces(a));
    } else if a[0] == ' ' {
      var rest := DropSpaces(a);
      DropSpacesShape(a);
      assert rest != [] && rest[|rest| - 1] == a[|a| - 1];
      DropSpacesAppend(a, t);
      CollapseRunTail(rest, run, b);
      CollapseLeadingRun(a, t, rest, tail);
    } else {
      var next := a[1..];
      assert next == [] || next[|next| - 1] == a[|a| - 1];
      CollapseRunTail(next, run, b);
      CollapseLeadingChar(a, t, tail);
    }
  }

  /** Collapsing works run by run: a run of spaces between two pieces that do
      not touch it becomes one space, and each piece collapses on its own. */
  lemma CollapseRun(a: string, run: string, b: string)
    requires run != [] && forall k :: 0 <= k < |run| ==> run[k] == ' '
    requires a == [] || a[|a| - 1] != ' '
    requires b == [] || b[0] != ' '
    ensures CollapseSpaces(a + run + b) == CollapseSpaces(a) + " " + CollapseSpaces(b)
  {
    CollapseRunTail(a, run, b);
    assert a + run + b == a + (run + b);
    Regroup(CollapseSpaces(a), " ", CollapseSpaces(b),
            CollapseSpaces(a) + (" " + CollapseSpaces(b)), CollapseSpaces(a) + " ");
  }

  /** `parts.join(sep)`: the inverse of `Split`. */
  function JoinWith(parts: seq<string>, sep: char): string
    requires |parts| > 0
  {
    if |parts| == 1 then parts[0] else parts[0] + [sep] + JoinWith(parts[1..], sep)
  }

  /** `s.split(sep)` for a one-character separator. */
  function Split(s: string, sep: char): (r: seq<string>)
    ensures |r| > 0
  {
    if s == [] then [""]
    else
      var rest := Split(s[1..], sep);
      if s[0] == sep then [""] + rest
      else [[s[0]] + rest[0]] + rest[1..]
  }

  /** No part contains the separator, and joining the parts with it gives the
      string back. */
  lemma {:induction false} SplitJoinsBack(s: string, sep: char)
    ensures forall i :: 0 <= i < |Split(s, sep)| ==> sep !in Split(s, sep)[i]
    ensures JoinWith(Split(s, sep), sep) == s
  {
    if s != [] {
      var rest := Split(s[1..], sep);
      SplitJoinsBack(s[1..], sep);
      if s[0] == sep {
        assert Split(s, sep) == [""] + rest;
        assert ([""] + rest)[1..] == rest;
      } else {
        var r := [[s[0]] + rest[0]] + rest[1..];
        assert Split(s, sep) == r;
        if |rest| > 1 {
          assert r[1..] == rest[1..];
          assert JoinWith(rest, sep) == rest[0] + [sep] + JoinWith(rest[1..], sep);
        }
        assert JoinWith(r, sep) == [s[0]] + JoinWith(rest, sep);
        assert s == [s[0]] + s[1..];
        forall i | 0 <= i < |r|
          ensures sep !in r[i]
        {
          if i > 0 {
            assert r[i] == rest[i];
          }
        }
      }
    }
  }

  /** A string that neither starts nor ends with the separator and never has
      two in a row splits into non-empty parts. */
  lemma {:induction false} SplitPartsNonEmpty(s: string, sep: char)
    requires s != [] && s[0] != sep && s[|s| - 1] != sep
    requires forall k :: 0 <= k < |s| - 1 ==> !(s[k] == sep && s[k + 1] == sep)
    ensures forall i :: 0 <= i < |Split(s, sep)| ==> Split(s, sep)[i] != ""
  {
    if |s| > 1 {
      var t := s[1..];
      if t[0] == sep {
        // the split restarts after the separator
        assert |t| > 1;
        SplitPartsNonEmpty(t[1..], sep);
        assert Split(t, sep) == [""] + Split(t[1..], sep);
      } else {
        SplitPartsNonEmpty(t, sep);
      }
    }
  }

  /** The fields of a timing line: trimmed, runs of spaces collapsed, split at spaces. */
  function Fields(line: string): seq<string> {
    Split(CollapseSpaces(Trim(line)), ' ')
  }

  /** A line with some non-blank content yields non-empty fields free of spaces
      whose space-separated join is the trimmed, collapsed line. */
  lemma FieldsAreWords(line: string)
    requires Trim(line) != ""
    ensures forall i :: 0 <= i < |Fields(line)| ==> Fields(line)[i] != "" && ' ' !in Fields(line)[i]
    ensures JoinWith(Fields(line), ' ') == CollapseSpaces(Trim(line))
  {
    TrimEnds(line);
    CollapseShape(Trim(line));
    var c := CollapseSpaces(Trim(line));
    SplitJoinsBack(c, ' ');
    assert c[0] != ' ' && c[|c| - 1] != ' ';
    SplitPartsNonEmpty(c, ' ');
  }
}
