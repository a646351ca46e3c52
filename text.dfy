/**
 * The few JavaScript string operations the clinic application relies on:
 * truthiness of a string, `a || b`, `toLowerCase`, `includes`, and
 * `replace(/\s+/g, '_')`.
 */
module Text {
  import opened Wrappers

  // ---------------------------------------------------------------------------
  // Truthiness and `||`
  // ---------------------------------------------------------------------------

  /** JavaScript truthiness of a value of type `string | undefined | null`:
      only a present, non-empty string is truthy. */
  predicate IsSet(o: Option<string>)
  {
    o.Some? && o.value != ""
  }

  /** How an absent optional string reads once a draft is cast to a full record
      (and how React renders it): as the empty string. */
  function OrEmpty(o: Option<string>): string
  {
    o.GetOr("")
  }

  /** `a || b` for two strings: the first one unless it is empty. */
  function Or(a: string, b: string): (r: string)
    ensures r == a || r == b
    ensures a != "" ==> r == a
    ensures r == "" <==> a == "" && b == ""
  {
    if a != "" then a else b
  }

  /** `a || b` where `a` may be undefined (optional chaining `h?.field || b`). */
  function OrOpt(a: Option<string>, b: string): (r: string)
    ensures IsSet(a) ==> r == a.value
    ensures !IsSet(a) ==> r == b
  {
    Or(OrEmpty(a), b)
  }

  // ---------------------------------------------------------------------------
  // Whitespace: the ECMAScript `\s` class (WhiteSpace and LineTerminator)
  // ---------------------------------------------------------------------------

  predicate IsSpace(c: char)
  {
    || c == ' ' || c == '\t' || c == '\n' || c == '\r'
    || c == '\U{000B}' || c == '\U{000C}' || c == '\U{00A0}' || c == '\U{1680}'
    || ('\U{2000}' <= c <= '\U{200A}')
    || c == '\U{2028}' || c == '\U{2029}' || c == '\U{202F}' || c == '\U{205F}'
    || c == '\U{3000}' || c == '\U{FEFF}'
  }

  predicate NoSpace(s: string)
  {
    forall i :: 0 <= i < |s| ==> !IsSpace(s[i])
  }

  lemma NoSpaceConcat(a: string, b: string)
    requires NoSpace(a) && NoSpace(b)
    ensures NoSpace(a + b)
  {
    forall i | 0 <= i < |a + b|
      ensures !IsSpace((a + b)[i])
    {
      if i < |a| {
        assert (a + b)[i] == a[i];
      } else {
        assert (a + b)[i] == b[i - |a|];
      }
    }
  }

  // ---------------------------------------------------------------------------
  // toLowerCase (ASCII and Latin-1 capitals)
  // ---------------------------------------------------------------------------

  predicate IsUpper(c: char)
  {
    ('A' <= c <= 'Z') || ('\U{00C0}' <= c <= '\U{00DE}' && c != '\U{00D7}')
  }

  function LowerChar(c: char): (d: char)
    ensures !IsUpper(d)
    ensures !IsUpper(c) ==> d == c
  {
    if IsUpper(c) then (c as int + 32) as char else c
  }

  function Lower(s: string): (r: string)
    ensures |r| == |s|
  {
    if s == [] then [] else [LowerChar(s[0])] + Lower(s[1..])
  }

  /** `toLowerCase` keeps the length and works character by character. */
  lemma {:induction false} LowerAt(s: string)
    ensures |Lower(s)| == |s|
    ensures forall i :: 0 <= i < |s| ==> Lower(s)[i] == LowerChar(s[i])
  {
    if s != [] {
      LowerAt(s[1..]);
    }
  }

  /** A string without capitals is its own lower case; in particular lowering twice
      is lowering once. */
  lemma {:induction false} LowerFixed(s: string)
    requires forall i :: 0 <= i < |s| ==> !IsUpper(s[i])
    ensures Lower(s) == s
  {
    if s != [] {
      LowerFixed(s[1..]);
    }
  }

  lemma LowerIdempotent(s: string)
    ensures Lower(Lower(s)) == Lower(s)
  {
    LowerAt(s);
    LowerFixed(Lower(s));
  }

  // ---------------------------------------------------------------------------
  // includes
  // ---------------------------------------------------------------------------

  /** `hay.includes(needle)`, scanning the start positions from left to right. */
  predicate Contains(hay: string, needle: string)
    decreases |hay|
  {
    needle <= hay || (hay != [] && Contains(hay[1..], needle))
  }

  /** `needle` occurs in `hay` at position `i`. */
  predicate OccursAt(hay: string, needle: string, i: int)
  {
    0 <= i <= |hay| - |needle| && hay[i..i + |needle|] == needle
  }

  /** `includes` agrees with its definition by positions: some window of `hay` equals `needle`. */
  lemma {:induction false} ContainsIff(hay: string, needle: string)
    ensures Contains(hay, needle) <==> exists i :: OccursAt(hay, needle, i)
  {
    if needle <= hay {
      assert OccursAt(hay, needle, 0);
    } else if hay == [] {
    } else {
      ContainsIff(hay[1..], needle);
      if Contains(hay[1..], needle) {
        var i :| OccursAt(hay[1..], needle, i);
        assert hay[i + 1..i + 1 + |needle|] == hay[1..][i..i + |needle|];
        assert OccursAt(hay, needle, i + 1);
      }
      if exists i :: OccursAt(hay, needle, i) {
        var i :| OccursAt(hay, needle, i);
        assert i != 0;
        assert hay[1..][i - 1..i - 1 + |needle|] == hay[i..i + |needle|];
        assert OccursAt(hay[1..], needle, i - 1);
      }
    }
  }

  /** The empty needle is found in every string. */
  lemma ContainsEmpty(hay: string)
    ensures Contains(hay, "")
  {
  }

  // ---------------------------------------------------------------------------
  // replace(/\s+/g, '_')
  // ---------------------------------------------------------------------------

  /** Drops the leading run of whitespace. */
  function SkipSpaces(s: string): (r: string)
    ensures |r| <= |s|
    ensures r == [] || !IsSpace(r[0])
  {
    if s != [] && IsSpace(s[0]) then SkipSpaces(s[1..]) else s
  }

  /** Replaces every maximal run of whitespace by a single `_`. */
  function CollapseSpaces(s: string): (r: string)
    ensures |r| <= |s|
    ensures r == [] <==> s == []
    decreases |s|
  {
    if s == [] then []
    else if IsSpace(s[0]) then "_" + CollapseSpaces(SkipSpaces(s[1..]))
    else [s[0]] + CollapseSpaces(s[1..])
  }

  /** No whitespace survives the replacement. */
  lemma {:induction false} CollapseNoSpace(s: string)
    ensures NoSpace(CollapseSpaces(s))
    decreases |s|
  {
    if s == [] {
    } else if IsSpace(s[0]) {
      CollapseNoSpace(SkipSpaces(s[1..]));
    } else {
      CollapseNoSpace(s[1..]);
    }
  }

  /** A string without whitespace is left as it is. */
  lemma {:induction false} CollapseIdentity(s: string)
    requires NoSpace(s)
    ensures CollapseSpaces(s) == s
  {
    if s != [] {
      assert !IsSpace(s[0]);
      CollapseIdentity(s[1..]);
    }
  }

  /** Replacing twice is replacing once. */
  lemma CollapseIdempotent(s: string)
    ensures CollapseSpaces(CollapseSpaces(s)) == CollapseSpaces(s)
  {
    CollapseNoSpace(s);
    CollapseIdentity(CollapseSpaces(s));
  }

  /** The characters that are neither whitespace nor `_`, in order. */
  function Visible(s: string): (r: string)
  {
    if s == [] then []
    else if IsSpace(s[0]) || s[0] == '_' then Visible(s[1..])
    else [s[0]] + Visible(s[1..])
  }

  /** Visible characters of a concatenation are those of each part, in order. */
  lemma {:induction false} VisibleConcat(a: string, b: string)
    ensures Visible(a + b) == Visible(a) + Visible(b)
  {
    if a == [] {
      assert a + b == b;
    } else {
      assert (a + b)[0] == a[0] && (a + b)[1..] == a[1..] + b;
      VisibleConcat(a[1..], b);
    }
  }

  lemma {:induction false} VisibleSkip(s: string)
    ensures Visible(SkipSpaces(s)) == Visible(s)
  {
    if s != [] && IsSpace(s[0]) {
      VisibleSkip(s[1..]);
    }
  }

  /** The replacement neither loses, reorders nor adds any visible character. */
  lemma {:induction false} CollapseKeepsVisible(s: string)
    ensures Visible(CollapseSpaces(s)) == Visible(s)
    decreases |s|
  {
    if s == [] {
    } else if IsSpace(s[0]) {
      var t := SkipSpaces(s[1..]);
      CollapseKeepsVisible(t);
      VisibleSkip(s[1..]);
      assert ("_" + CollapseSpaces(t))[1..] == CollapseSpaces(t);
    } else {
      CollapseKeepsVisible(s[1..]);
      assert ([s[0]] + CollapseSpaces(s[1..]))[1..] == CollapseSpaces(s[1..]);
    }
  }

  predicate AllSpace(w: string)
  {
    forall i :: 0 <= i < |w| ==> IsSpace(w[i])
  }

  lemma {:induction false} SkipRun(w: string, y: string)
    requires AllSpace(w)
    requires y == [] || !IsSpace(y[0])
    ensures SkipSpaces(w + y) == y
  {
    if w != [] {
      assert (w + y)[1..] == w[1..] + y;
      SkipRun(w[1..], y);
    } else {
      assert w + y == y;
    }
  }

  lemma {:induction false} SkipConcat(x: string, y: string)
    requires x != [] && !IsSpace(x[|x| - 1])
    ensures SkipSpaces(x + y) == SkipSpaces(x) + y
  {
    if IsSpace(x[0]) {
      assert (x + y)[1..] == x[1..] + y;
      SkipConcat(x[1..], y);
    }
  }

  lemma {:induction false} SkipKeepsLast(s: string)
    requires s != [] && !IsSpace(s[|s| - 1])
    ensures SkipSpaces(s) != [] && SkipSpaces(s)[|SkipSpaces(s)| - 1] == s[|s| - 1]
  {
    if IsSpace(s[0]) {
      SkipKeepsLast(s[1..]);
    }
  }

  /** One whitespace run, however long, becomes exactly one `_`. */
  lemma CollapseRun(w: string, y: string)
    requires w != [] && AllSpace(w)
    requires y == [] || !IsSpace(y[0])
    ensures CollapseSpaces(w + y) == "_" + CollapseSpaces(y)
  {
    assert (w + y)[0] == w[0];
    assert (w + y)[1..] == w[1..] + y;
    SkipRun(w[1..], y);
  }

  /** Cutting a string after a visible character and replacing the two halves separately
      gives the same result: whitespace runs never reach across such a cut. */
  lemma {:induction false} CollapseSplit(x: string, y: string)
    requires x == [] || !IsSpace(x[|x| - 1])
    ensures CollapseSpaces(x + y) == CollapseSpaces(x) + CollapseSpaces(y)
    decreases |x|, 1
  {
    if x == [] {
      assert x + y == y;
    } else if IsSpace(x[0]) {
      CollapseSplitAtSpace(x, y);
    } else {
      CollapseSplitAtVisible(x, y);
    }
  }

  lemma {:induction false} CollapseSplitAtSpace(x: string, y: string)
    requires x != [] && IsSpace(x[0]) && !IsSpace(x[|x| - 1])
    ensures CollapseSpaces(x + y) == CollapseSpaces(x) + CollapseSpaces(y)
    decreases |x|, 0
  {
    var t := SkipSpaces(x[1..]);
    SkipAfterSpace(x, y);
    SkipKeepsLast(x[1..]);
    CollapseSplit(t, y);
    assert CollapseSpaces(x + y) == "_" + CollapseSpaces(t + y) by {
      assert (x + y)[0] == x[0];
    }
  }

  /** Dropping the first whitespace run of `x + y` stays inside `x`. */
  lemma SkipAfterSpace(x: string, y: string)
    requires x != [] && !IsSpace(x[|x| - 1])
    requires |x| > 1
    ensures SkipSpaces((x + y)[1..]) == SkipSpaces(x[1..]) + y
  {
    assert (x + y)[1..] == x[1..] + y;
    SkipConcat(x[1..], y);
  }

  lemma {:induction false} CollapseSplitAtVisible(x: string, y: string)
    requires x != [] && !IsSpace(x[0]) && !IsSpace(x[|x| - 1])
    ensures CollapseSpaces(x + y) == CollapseSpaces(x) + CollapseSpaces(y)
    decreases |x|, 0
  {
    var rest := x[1..];
    assert (x + y)[0] == x[0] && (x + y)[1..] == rest + y;
    CollapseSplit(rest, y);
    assert CollapseSpaces(x + y) == [x[0]] + CollapseSpaces(rest + y);
  }
}
