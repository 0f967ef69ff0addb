/** String helpers with JavaScript's semantics: `split` on a string separator, `join`,
    `filter(Boolean)` on strings, a one-character global `replace`, and the whitespace class
    shared by `String.prototype.trim` and the regular-expression class `\s`. */
module Text {

  /** `sep` occurs in `s` starting at index `i`. */
  predicate OccursAt(s: string, sep: string, i: nat) {
    i + |sep| <= |s| && s[i..i + |sep|] == sep
  }

  /** `s.includes(sep)`. */
  predicate Contains(s: string, sep: string) {
    exists i: nat | i <= |s| :: OccursAt(s, sep, i)
  }

  /** `s.split(sep)` for a non-empty separator: the leftmost occurrence is cut first, occurrences
      do not overlap, and the empty string splits into one empty part. */
  function Split(s: string, sep: string): (parts: seq<string>)
    requires |sep| > 0
    ensures |parts| >= 1
    decreases |s|
  {
    if |sep| <= |s| && s[..|sep|] == sep then [""] + Split(s[|sep|..], sep)
    else if s == [] then [""]
    else
      var rest := Split(s[1..], sep);
      [[s[0]] + rest[0]] + rest[1..]
  }

  /** `parts.join(sep)`. */
  function Join(parts: seq<string>, sep: string): string {
    if parts == [] then ""
    else if |parts| == 1 then parts[0]
    else parts[0] + sep + Join(parts[1..], sep)
  }

  /** `parts.filter(Boolean)`: the non-empty strings, in order. */
  function NonEmpty(parts: seq<string>): (kept: seq<string>)
    ensures forall p :: p in kept <==> p in parts && p != ""
    ensures |kept| <= |parts|
  {
    if parts == [] then []
    else (if parts[0] != "" then [parts[0]] else []) + NonEmpty(parts[1..])
  }

  /** `s.replace(/c/g, rep)`. */
  function ReplaceAll(s: string, c: char, rep: string): string {
    if s == [] then ""
    else (if s[0] == c then rep else [s[0]]) + ReplaceAll(s[1..], c, rep)
  }

  /** The characters of JavaScript's WhiteSpace and LineTerminator productions, which both `trim`
      and `\s` use. */
  predicate IsSpace(c: char) {
    c == ' ' || c == '\t' || c == '\n' || c == '\r' || c == '\U{B}' || c == '\U{C}'
    || c == '\U{A0}' || c == '\U{1680}' || ('\U{2000}' <= c <= '\U{200A}') || c == '\U{2028}'
    || c == '\U{2029}' || c == '\U{202F}' || c == '\U{205F}' || c == '\U{3000}' || c == '\U{FEFF}'
  }

  /** `!s.trim()`: nothing is left once leading and trailing whitespace is removed. */
  predicate Blank(s: string) {
    forall i :: 0 <= i < |s| ==> IsSpace(s[i])
  }

  /** A character JavaScript stores as a surrogate pair: one outside the Basic Multilingual Plane. */
  predicate IsAstral(c: char) {
    c as int > 0xFFFF
  }

  /** `s.length`: the number of UTF-16 code units, so an astral character counts two. */
  function Utf16Length(s: string): (n: nat)
    ensures |s| <= n <= 2 * |s|
    ensures n == |s| <==> forall i :: 0 <= i < |s| ==> !IsAstral(s[i])
  {
    if s == [] then 0
    else (if IsAstral(s[0]) then 2 else 1) + Utf16Length(s[1..])
  }

  // ---------------------------------------------------------------------------------------------
  // Lemmas

  /** Joining a part onto the front of the first part of a list. */
  lemma {:induction false} JoinExtendFirst(a: string, parts: seq<string>, sep: string)
    requires |parts| >= 1
    ensures Join([a + parts[0]] + parts[1..], sep) == a + Join(parts, sep)
  {
    var ps := [a + parts[0]] + parts[1..];
    if |parts| == 1 {
      assert ps == [a + parts[0]];
    } else {
      assert ps[1..] == parts[1..];
      calc {
        Join(ps, sep);
        ps[0] + sep + Join(ps[1..], sep);
        (a + parts[0]) + sep + Join(parts[1..], sep);
        a + (parts[0] + sep + Join(parts[1..], sep));
      }
    }
  }

  /** Splitting loses nothing: joining the parts with the same separator gives back the string. */
  lemma {:induction false} JoinSplit(s: string, sep: string)
    requires |sep| > 0
    ensures Join(Split(s, sep), sep) == s
    decreases |s|
  {
    if |sep| <= |s| && s[..|sep|] == sep {
      var rest := Split(s[|sep|..], sep);
      JoinSplit(s[|sep|..], sep);
      assert ([""] + rest)[1..] == rest;
      calc {
        Join(Split(s, sep), sep);
        Join([""] + rest, sep);
        "" + sep + Join(rest, sep);
        s[..|sep|] + s[|sep|..];
        s;
      }
    } else if s == [] {
    } else {
      var rest := Split(s[1..], sep);
      JoinSplit(s[1..], sep);
      JoinExtendFirst([s[0]], rest, sep);
      calc {
        Join(Split(s, sep), sep);
        Join([[s[0]] + rest[0]] + rest[1..], sep);
        [s[0]] + Join(rest, sep);
        [s[0]] + s[1..];
        s;
      }
    }
  }

  /** The first part of a split is a prefix of the string. */
  lemma {:induction false} SplitFirstIsPrefix(s: string, sep: string)
    requires |sep| > 0
    ensures Split(s, sep)[0] <= s
    decreases |s|
  {
    if |sep| <= |s| && s[..|sep|] == sep {
    } else if s == [] {
    } else {
      SplitFirstIsPrefix(s[1..], sep);
    }
  }

  /** No part of a split contains the separator. */
  lemma {:induction false} SplitPartsAvoidSeparator(s: string, sep: string)
    requires |sep| > 0
    ensures forall p :: p in Split(s, sep) ==> !Contains(p, sep)
    decreases |s|
  {
    if |sep| <= |s| && s[..|sep|] == sep {
      var rest := Split(s[|sep|..], sep);
      assert Split(s, sep) == [""] + rest;
      SplitPartsAvoidSeparator(s[|sep|..], sep);
      assert !OccursAt("", sep, 0);
    } else if s == [] {
      assert Split(s, sep) == [""];
      assert !OccursAt("", sep, 0);
    } else {
      var rest := Split(s[1..], sep);
      var first := [s[0]] + rest[0];
      assert Split(s, sep) == [first] + rest[1..];
      SplitPartsAvoidSeparator(s[1..], sep);
      SplitFirstIsPrefix(s[1..], sep);
      assert rest[0] in rest;
      assert first <= s;
      assert first[1..] == rest[0];
      FirstPartAvoids(first, s, sep);
      assert forall p :: p in rest[1..] ==> p in rest;
    }
  }

  /** A prefix of a string that does not start with the separator, whose tail does not contain the
      separator, does not contain it either. */
  lemma FirstPartAvoids(first: string, s: string, sep: string)
    requires |first| >= 1 && first <= s
    requires !(|sep| <= |s| && s[..|sep|] == sep)
    requires !Contains(first[1..], sep)
    ensures !Contains(first, sep)
  {
    forall i: nat | i <= |first| ensures !OccursAt(first, sep, i) {
      if i == 0 {
        if |sep| <= |first| {
          assert first[0..|sep|] == s[..|sep|];
        }
      } else if i + |sep| <= |first| {
        assert first[1..][i - 1..i - 1 + |sep|] == first[i..i + |sep|];
        assert !OccursAt(first[1..], sep, i - 1);
      }
    }
  }

  /** A string that does not contain the separator splits into exactly itself. */
  lemma {:induction false} SplitWithoutSeparator(s: string, sep: string)
    requires |sep| > 0 && !Contains(s, sep)
    ensures Split(s, sep) == [s]
    decreases |s|
  {
    assert !OccursAt(s, sep, 0);
    if s != [] {
      forall i: nat | OccursAt(s[1..], sep, i) ensures false {
        assert s[i + 1..i + 1 + |sep|] == s[1..][i..i + |sep|];
        assert OccursAt(s, sep, i + 1);
      }
      SplitWithoutSeparator(s[1..], sep);
      assert s == [s[0]] + s[1..];
    }
  }

  /** For a one-character separator absent from `x`, `x + sep + t` splits into `x` and the parts of `t`. */
  lemma {:induction false} SplitAfterPart(x: string, t: string, sep: string)
    requires |sep| == 1 && sep[0] !in x
    ensures Split(x + sep + t, sep) == [x] + Split(t, sep)
    decreases |x|
  {
    var s := x + sep + t;
    if x == [] {
      assert s == sep + t;
      assert s[..1] == sep && s[1..] == t;
    } else {
      assert s[..1] != sep by { assert s[0] == x[0]; }
      assert s[1..] == x[1..] + sep + t;
      SplitAfterPart(x[1..], t, sep);
      assert [x[0]] + x[1..] == x;
    }
  }

  /** Joining with a one-character separator and splitting again returns the list, provided the
      list is non-empty and no element contains the separator. */
  lemma {:induction false} SplitJoin(parts: seq<string>, sep: string)
    requires |sep| == 1 && |parts| >= 1
    requires forall p :: p in parts ==> sep[0] !in p
    ensures Split(Join(parts, sep), sep) == parts
  {
    if |parts| == 1 {
      var p := parts[0];
      assert !Contains(p, sep) by {
        forall i: nat | OccursAt(p, sep, i) ensures false {
        }
      }
      SplitWithoutSeparator(p, sep);
    } else {
      SplitJoin(parts[1..], sep);
      SplitAfterPart(parts[0], Join(parts[1..], sep), sep);
      assert [parts[0]] + parts[1..] == parts;
    }
  }

  /** For a one-character separator, containing it is containing the character. */
  lemma ContainsChar(s: string, c: char)
    ensures Contains(s, [c]) <==> c in s
  {
    if c in s {
      var i :| 0 <= i < |s| && s[i] == c;
      assert OccursAt(s, [c], i);
    }
    if Contains(s, [c]) {
      var i: nat :| i <= |s| && OccursAt(s, [c], i);
      assert s[i..i + 1][0] == s[i];
    }
  }

  /** The parts kept by `NonEmpty` appear in their original order: it is the identity on a list
      without empty strings. */
  lemma {:induction false} NonEmptyKeepsNonEmptyList(parts: seq<string>)
    requires forall p :: p in parts ==> p != ""
    ensures NonEmpty(parts) == parts
  {
    if parts != [] {
      assert parts[0] in parts;
      assert forall p :: p in parts[1..] ==> p in parts;
      NonEmptyKeepsNonEmptyList(parts[1..]);
      assert [parts[0]] + parts[1..] == parts;
    }
  }

  /** Replacing every `c` by `rep` is the same as splitting on `c` and joining with `rep`, so the
      result never contains `c` when `rep` does not. */
  lemma {:induction false} ReplaceAllIsSplitJoin(s: string, c: char, rep: string)
    ensures ReplaceAll(s, c, rep) == Join(Split(s, [c]), rep)
    decreases |s|
  {
    if s == [] {
    } else if s[0] == c {
      assert s[..1] == [c];
      ReplaceAllIsSplitJoin(s[1..], c, rep);
      var rest := Split(s[1..], [c]);
      assert ([""] + rest)[1..] == rest;
    } else {
      assert s[..1] != [c];
      ReplaceAllIsSplitJoin(s[1..], c, rep);
      JoinExtendFirst([s[0]], Split(s[1..], [c]), rep);
    }
  }

  /** After replacing every `c` by a string that does not contain it, no `c` is left. */
  lemma {:induction false} ReplaceAllRemoves(s: string, c: char, rep: string)
    requires c !in rep
    ensures c !in ReplaceAll(s, c, rep)
    decreases |s|
  {
    if s != [] {
      ReplaceAllRemoves(s[1..], c, rep);
    }
  }

  /** UTF-16 lengths add up over concatenation. */
  lemma {:induction false} Utf16LengthAppend(a: string, b: string)
    ensures Utf16Length(a + b) == Utf16Length(a) + Utf16Length(b)
  {
    if a != [] {
      assert (a + b)[0] == a[0];
      assert (a + b)[1..] == a[1..] + b;
      Utf16LengthAppend(a[1..], b);
    } else {
      assert a + b == b;
    }
  }
}
