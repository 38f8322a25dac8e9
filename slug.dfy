/** The vanity-URL slug that `createCreatorProfile` derives from a display
    name: lower-case it, turn every maximal run of whitespace into one `-`,
    then delete every character outside `[a-z0-9-]`. */
module Slug {

  /** The characters JavaScript's `\s` matches: the ECMAScript WhiteSpace
      and LineTerminator code points. */
  predicate IsJsWhitespace(c: char) {
    || c == '\t' || c == '\n' || c == '\U{B}' || c == '\U{C}' || c == '\r' || c == ' '
    || c == '\U{A0}' || c == '\U{1680}' || ('\U{2000}' <= c <= '\U{200A}')
    || c == '\U{2028}' || c == '\U{2029}' || c == '\U{202F}' || c == '\U{205F}'
    || c == '\U{3000}' || c == '\U{FEFF}'
  }

  /** The characters the second rewrite keeps: `[a-z0-9-]`. */
  predicate IsSlugChar(c: char) {
    ('a' <= c <= 'z') || ('0' <= c <= '9') || c == '-'
  }

  predicate AllSlugChars(s: string) {
    forall i :: 0 <= i < |s| ==> IsSlugChar(s[i])
  }

  predicate NoWhitespace(s: string) {
    forall i :: 0 <= i < |s| ==> !IsJsWhitespace(s[i])
  }

  /** `toLowerCase` on the ASCII letters; every other character is kept. */
  function LowerChar(c: char): (d: char)
    ensures 'A' <= c <= 'Z' ==> 'a' <= d <= 'z' && d as int == c as int + 32
    ensures !('A' <= c <= 'Z') ==> d == c
  {
    if 'A' <= c <= 'Z' then (c as int + 32) as char else c
  }

  function ToLower(s: string): (r: string)
    ensures |r| == |s|
    ensures forall i :: 0 <= i < |s| ==> r[i] == LowerChar(s[i])
  {
    if s == [] then [] else [LowerChar(s[0])] + ToLower(s[1..])
  }

  /** What is left of `s` once its leading whitespace is consumed. */
  function DropWhitespace(s: string): (r: string)
    ensures |r| <= |s| && r == s[|s| - |r|..]
    ensures r == [] || !IsJsWhitespace(r[0])
    ensures forall i :: 0 <= i < |s| - |r| ==> IsJsWhitespace(s[i])
  {
    if s != [] && IsJsWhitespace(s[0]) then DropWhitespace(s[1..]) else s
  }

  /** `replace(/\s+/g, '-')`: the greedy global match replaces each maximal
      run of whitespace by a single `-`. */
  function DashRuns(s: string): (r: string)
    ensures NoWhitespace(r)
    ensures |r| <= |s|
    decreases |s|
  {
    if s == [] then []
    else if IsJsWhitespace(s[0]) then "-" + DashRuns(DropWhitespace(s[1..]))
    else [s[0]] + DashRuns(s[1..])
  }

  /** `replace(/[^a-z0-9-]/g, '')`. */
  function KeepSlugChars(s: string): (r: string)
    ensures AllSlugChars(r)
    ensures |r| <= |s|
  {
    if s == [] then []
    else if IsSlugChar(s[0]) then [s[0]] + KeepSlugChars(s[1..])
    else KeepSlugChars(s[1..])
  }

  /** The vanity URL of a display name (lib/database.ts line 88). */
  function Slugify(displayName: string): (slug: string)
    ensures AllSlugChars(slug)
    ensures |slug| <= |displayName|
  {
    KeepSlugChars(DashRuns(ToLower(displayName)))
  }

  // ----- the three passes on a string that is already a slug -----

  lemma {:induction false} ToLowerOfSlugChars(s: string)
    requires AllSlugChars(s)
    ensures ToLower(s) == s
  {
  }

  lemma {:induction false} DashRunsWithoutWhitespace(s: string)
    requires NoWhitespace(s)
    ensures DashRuns(s) == s
    decreases |s|
  {
    if s != [] {
      DashRunsWithoutWhitespace(s[1..]);
    }
  }

  lemma {:induction false} KeepSlugCharsOfSlugChars(s: string)
    requires AllSlugChars(s)
    ensures KeepSlugChars(s) == s
  {
    if s != [] {
      KeepSlugCharsOfSlugChars(s[1..]);
    }
  }

  /** A string is its own slug exactly when it is made of `[a-z0-9-]`. */
  lemma SlugFixedPoint(s: string)
    ensures Slugify(s) == s <==> AllSlugChars(s)
  {
    if AllSlugChars(s) {
      ToLowerOfSlugChars(s);
      assert NoWhitespace(s) by {
        forall i | 0 <= i < |s| ensures !IsJsWhitespace(s[i]) {
          assert IsSlugChar(s[i]);
        }
      }
      DashRunsWithoutWhitespace(s);
      KeepSlugCharsOfSlugChars(s);
    }
  }

  /** Slugging a slug changes nothing. */
  lemma SlugIdempotent(s: string)
    ensures Slugify(Slugify(s)) == Slugify(s)
  {
    SlugFixedPoint(Slugify(s));
  }

  // ----- how whitespace runs are rewritten -----

  lemma {:induction false} DropWhitespaceOfRun(w: string, b: string)
    requires forall i :: 0 <= i < |w| ==> IsJsWhitespace(w[i])
    requires b == [] || !IsJsWhitespace(b[0])
    ensures DropWhitespace(w + b) == b
  {
    if w != [] {
      assert (w + b)[1..] == w[1..] + b;
      DropWhitespaceOfRun(w[1..], b);
    }
  }

  /** A maximal run of whitespace (not followed by more whitespace) becomes
      exactly one `-`, however long it is. */
  lemma WhitespaceRunBecomesOneDash(w: string, b: string)
    requires |w| > 0 && forall i :: 0 <= i < |w| ==> IsJsWhitespace(w[i])
    requires b == [] || !IsJsWhitespace(b[0])
    ensures DashRuns(w + b) == "-" + DashRuns(b)
  {
    var s := w + b;
    assert s[0] == w[0] && IsJsWhitespace(s[0]);
    assert s[1..] == w[1..] + b;
    DropWhitespaceOfRun(w[1..], b);
    assert DashRuns(s) == "-" + DashRuns(DropWhitespace(s[1..]));
  }

  /** Text without whitespace passes through the first rewrite unchanged. */
  lemma {:induction false} NonWhitespaceKept(x: string, b: string)
    requires NoWhitespace(x)
    ensures DashRuns(x + b) == x + DashRuns(b)
    decreases |x|
  {
    if x != [] {
      assert (x + b)[0] == x[0];
      assert (x + b)[1..] == x[1..] + b;
      NonWhitespaceKept(x[1..], b);
      assert x == [x[0]] + x[1..];
    } else {
      assert x + b == b;
    }
  }

  /** Whitespace is rewritten before the disallowed characters are removed,
      so a run with a punctuation mark in the middle gives two hyphens, and
      hyphens are never merged. */
  lemma SpacedPunctuationGivesTwoDashes()
    ensures Slugify("a ! b") == "a--b"
  {
    assert ToLower("a ! b") == "a ! b" by {
      assert !('A' <= ' ' <= 'Z') && !('A' <= '!' <= 'Z');
    }
    assert DashRuns("b") == "b" by {
      NonWhitespaceKept("b", "");
      assert "b" + "" == "b";
    }
    assert DashRuns(" b") == "-b" by {
      WhitespaceRunBecomesOneDash(" ", "b");
      assert " " + "b" == " b";
    }
    assert DashRuns("! b") == "!-b" by {
      NonWhitespaceKept("!", " b");
      assert "!" + " b" == "! b";
    }
    assert DashRuns(" ! b") == "-!-b" by {
      WhitespaceRunBecomesOneDash(" ", "! b");
      assert " " + "! b" == " ! b";
    }
    assert DashRuns("a ! b") == "a-!-b" by {
      NonWhitespaceKept("a", " ! b");
      assert "a" + " ! b" == "a ! b";
    }
    assert KeepSlugChars("a-!-b") == "a--b";
  }
}
