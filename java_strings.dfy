/**
 * The pieces of java.lang.String, java.lang.Character and commons-lang
 * StringUtils that the tunnel code relies on: splitting on ':', the natural
 * order of compareTo, blankness, and the line terminators that a regular
 * expression '.' refuses to match.
 */
module JavaStrings {
  import opened Wrappers

  /** Every field of s between ':' separators, empty ones included (no limit). */
  function Fields(s: string): (r: seq<string>)
    ensures |r| >= 1
    decreases |s|
  {
    if s == [] then [""]
    else
      var rest := Fields(s[1..]);
      if s[0] == ':' then [""] + rest else [[s[0]] + rest[0]] + rest[1..]
  }

  /** The fields glued back together with ':' between them. */
  function Join(fs: seq<string>): string
  {
    if fs == [] then ""
    else if |fs| == 1 then fs[0]
    else fs[0] + ":" + Join(fs[1..])
  }

  /** Removes empty strings from the end of fs, as split with limit 0 does. */
  function DropTrailingEmpty(fs: seq<string>): (r: seq<string>)
    ensures |r| <= |fs| && r == fs[..|r|]
    ensures forall i :: |r| <= i < |fs| ==> fs[i] == ""
    ensures r == [] || r[|r| - 1] != ""
  {
    if fs != [] && fs[|fs| - 1] == "" then DropTrailingEmpty(fs[..|fs| - 1]) else fs
  }

  /**
   * s.split(":") in Java: a string without ':' is returned whole (even the
   * empty string); otherwise every field is kept, a leading empty one
   * included, and the empty fields at the end are dropped.
   */
  function Split(s: string): seq<string>
  {
    if ':' !in s then [s] else DropTrailingEmpty(Fields(s))
  }

  /** Fields is undone by Join, and no field holds a separator. */
  lemma {:induction false} FieldsJoin(s: string)
    ensures Join(Fields(s)) == s
    ensures forall i :: 0 <= i < |Fields(s)| ==> ':' !in Fields(s)[i]
    decreases |s|
  {
    if s != [] {
      var rest := Fields(s[1..]);
      FieldsJoin(s[1..]);
      if s[0] == ':' {
        assert Fields(s) == [""] + rest;
        assert s == [':'] + s[1..];
      } else {
        var fs := Fields(s);
        assert fs == [[s[0]] + rest[0]] + rest[1..];
        if |rest| == 1 {
          assert s == [s[0]] + rest[0];
        } else {
          assert Join(rest) == rest[0] + ":" + Join(rest[1..]);
          assert fs[1..] == rest[1..];
          assert s == [s[0]] + rest[0] + ":" + Join(rest[1..]);
        }
        forall i | 0 <= i < |fs| ensures ':' !in fs[i] {
          if i > 0 { assert fs[i] == rest[i]; }
        }
      }
    }
  }

  /** A string without ':' is a single field. */
  lemma {:induction false} FieldsWithoutSeparator(h: string)
    requires ':' !in h
    ensures Fields(h) == [h]
    decreases |h|
  {
    if h != [] {
      assert ':' !in h[1..] by {
        forall i | 0 <= i < |h[1..]| ensures h[1..][i] != ':' { assert h[1..][i] == h[i + 1]; }
      }
      FieldsWithoutSeparator(h[1..]);
      assert [h[0]] + h[1..] == h;
    }
  }

  /** The text before the first ':' is the first field, the rest are those of what follows. */
  lemma {:induction false} FieldsAfterSeparator(h: string, t: string)
    requires ':' !in h
    ensures Fields(h + ":" + t) == [h] + Fields(t)
    decreases |h|
  {
    if h == [] {
      assert (h + ":" + t)[1..] == t;
    } else {
      assert ':' !in h[1..] by {
        forall i | 0 <= i < |h[1..]| ensures h[1..][i] != ':' { assert h[1..][i] == h[i + 1]; }
      }
      FieldsAfterSeparator(h[1..], t);
      assert (h + ":" + t)[1..] == h[1..] + ":" + t;
      assert [h[0]] + h[1..] == h;
    }
  }

  /** The first field runs up to the first ':' or to the end of the string. */
  lemma {:induction false} FirstField(s: string)
    ensures Fields(s)[0] <= s
    ensures ':' !in Fields(s)[0]
    ensures |Fields(s)[0]| == |s| || s[|Fields(s)[0]|] == ':'
    decreases |s|
  {
    if s != [] && s[0] != ':' {
      FirstField(s[1..]);
      var f := Fields(s[1..])[0];
      assert Fields(s)[0] == [s[0]] + f;
      assert s == [s[0]] + s[1..];
    }
  }

  /** Every field is empty exactly when the string holds nothing but separators. */
  lemma {:induction false} FieldsAllEmpty(s: string)
    ensures (forall i :: 0 <= i < |Fields(s)| ==> Fields(s)[i] == "") <==> (forall j :: 0 <= j < |s| ==> s[j] == ':')
    decreases |s|
  {
    if s != [] {
      FieldsAllEmpty(s[1..]);
      var rest := Fields(s[1..]);
      var fs := Fields(s);
      if s[0] == ':' {
        assert fs == [""] + rest;
        assert (forall i :: 0 <= i < |fs| ==> fs[i] == "") <==> (forall i :: 0 <= i < |rest| ==> rest[i] == "") by {
          forall i | 0 <= i < |rest| ensures fs[i + 1] == rest[i] { }
        }
        assert (forall j :: 0 <= j < |s| ==> s[j] == ':') <==> (forall j :: 0 <= j < |s[1..]| ==> s[1..][j] == ':') by {
          forall j | 0 <= j < |s[1..]| ensures s[1..][j] == s[j + 1] { }
        }
      } else {
        assert fs[0] != "";
      }
    }
  }

  /** split(":") yields no field at all exactly for a non-empty string of separators only. */
  lemma SplitEmpty(s: string)
    ensures Split(s) == [] <==> (s != "" && forall j :: 0 <= j < |s| ==> s[j] == ':')
  {
    if ':' in s {
      FieldsAllEmpty(s);
      var fs := Fields(s);
      var r := DropTrailingEmpty(fs);
      assert Split(s) == r;
      if forall j :: 0 <= j < |s| ==> s[j] == ':' {
        assert forall i :: 0 <= i < |fs| ==> fs[i] == "";
        assert r == [];
      }
      if r == [] {
        assert forall i :: 0 <= i < |fs| ==> fs[i] == "";
        assert forall j :: 0 <= j < |s| ==> s[j] == ':';
      }
    } else if s != "" {
      assert s[0] != ':';
    }
  }

  /** The first element of split(":") is the text before the first ':'. */
  lemma SplitHead(s: string)
    requires Split(s) != []
    ensures Split(s)[0] <= s && ':' !in Split(s)[0]
    ensures |Split(s)[0]| == |s| || s[|Split(s)[0]|] == ':'
  {
    if ':' in s {
      FirstField(s);
    }
  }

  /**
   * Two non-empty-ending leading fields survive split(":"): for a + ":" + b + rest
   * with rest empty or starting at a separator, the first two fields are a and b.
   */
  lemma SplitTwoFields(a: string, b: string, rest: string)
    requires ':' !in a && ':' !in b && b != ""
    requires rest == "" || rest[0] == ':'
    ensures |Split(a + ":" + b + rest)| >= 2
    ensures Split(a + ":" + b + rest)[0] == a && Split(a + ":" + b + rest)[1] == b
  {
    var s := a + ":" + b + rest;
    assert s == a + ":" + (b + rest);
    assert s[|a|] == ':';
    FieldsAfterSeparator(a, b + rest);
    var fs := Fields(s);
    if rest == "" {
      assert b + rest == b;
      FieldsWithoutSeparator(b);
      assert fs == [a, b];
    } else {
      assert b + rest == b + ":" + rest[1..];
      FieldsAfterSeparator(b, rest[1..]);
      assert fs[..2] == [a, b];
    }
    var r := DropTrailingEmpty(fs);
    assert fs[1] == b;
    assert |r| >= 2;
    assert r[0] == fs[0] && r[1] == fs[1];
  }

  /** Only the field before a trailing ':' survives split(":"). */
  lemma SplitTrailingSeparator(a: string)
    requires ':' !in a
    ensures Split(a + ":") == if a == "" then [] else [a]
  {
    var s := a + ":";
    assert s[|a|] == ':';
    assert s == a + ":" + "";
    FieldsAfterSeparator(a, "");
    assert Fields(s) == [a, ""];
    assert [a, ""][..1] == [a];
    assert DropTrailingEmpty([a, ""]) == DropTrailingEmpty([a]);
    assert [a][..0] == [];
  }

  // ----- compareTo -----

  /**
   * The position of a character in UTF-16 code-unit order. Characters up to
   * U+D7FF and supplementary characters (encoded from a surrogate, U+D800 to
   * U+DBFF) keep their code point; the characters U+E000 to U+FFFF, whose
   * single code unit is above every surrogate, are placed above them all.
   */
  function CharRank(c: char): int
  {
    if (c as int) < 0xD800 || (c as int) >= 0x1_0000 then c as int else c as int + 0x11_0000
  }

  lemma CharRankInjective(c: char, d: char)
    ensures CharRank(c) == CharRank(d) <==> c == d
  {
  }

  /** a.compareTo(b) < 0: the first differing character decides, and a proper prefix comes first. */
  predicate Less(a: string, b: string)
    decreases |a|
  {
    if a == [] then b != []
    else if b == [] then false
    else if a[0] == b[0] then Less(a[1..], b[1..])
    else CharRank(a[0]) < CharRank(b[0])
  }

  lemma {:induction false} LessIrreflexive(a: string)
    ensures !Less(a, a)
    decreases |a|
  {
    if a != [] { LessIrreflexive(a[1..]); }
  }

  lemma {:induction false} LessTransitive(a: string, b: string, c: string)
    requires Less(a, b) && Less(b, c)
    ensures Less(a, c)
    decreases |a|
  {
    if a != [] && b != [] && c != [] {
      if a[0] == b[0] && b[0] == c[0] {
        LessTransitive(a[1..], b[1..], c[1..]);
      }
    }
  }

  lemma {:induction false} LessTotal(a: string, b: string)
    requires a != b
    ensures Less(a, b) || Less(b, a)
    decreases |a|
  {
    if a != [] && b != [] {
      if a[0] == b[0] {
        assert a == [a[0]] + a[1..] && b == [b[0]] + b[1..];
        LessTotal(a[1..], b[1..]);
      } else {
        CharRankInjective(a[0], b[0]);
      }
    }
  }

  lemma {:induction false} LessAsymmetric(a: string, b: string)
    requires Less(a, b)
    ensures !Less(b, a)
  {
    if Less(b, a) {
      LessTransitive(a, b, a);
      LessIrreflexive(a);
    }
  }

  // ----- blankness and regular expressions -----

  /** Character.isWhitespace: the Unicode separators other than the no-break spaces, and the ASCII controls listed. */
  predicate IsWhitespace(c: char)
  {
    || c == ' '
    || ('\t' <= c <= '\r')
    || ('\U{001C}' <= c <= '\U{001F}')
    || c == '\U{1680}'
    || ('\U{2000}' <= c <= '\U{2006}')
    || ('\U{2008}' <= c <= '\U{200A}')
    || c == '\U{2028}' || c == '\U{2029}'
    || c == '\U{205F}' || c == '\U{3000}'
  }

  /** StringUtils.isBlank: null, empty, or whitespace only. */
  predicate IsBlank(s: Option<string>)
  {
    s.None? || forall i :: 0 <= i < |s.value| ==> IsWhitespace(s.value[i])
  }

  /** A concatenation is blank exactly when both parts are. */
  lemma IsBlankConcat(a: string, b: string)
    ensures IsBlank(Some(a + b)) <==> IsBlank(Some(a)) && IsBlank(Some(b))
  {
    var ab := a + b;
    if IsBlank(Some(a)) && IsBlank(Some(b)) {
      forall i | 0 <= i < |ab| ensures IsWhitespace(ab[i]) {
        if i >= |a| {
          assert ab[i] == b[i - |a|];
        }
      }
    }
    if IsBlank(Some(ab)) {
      forall i | 0 <= i < |a| ensures IsWhitespace(a[i]) {
        assert ab[i] == a[i];
      }
      forall i | 0 <= i < |b| ensures IsWhitespace(b[i]) {
        assert ab[|a| + i] == b[i];
      }
    }
  }

  /** The characters a regular-expression '.' does not match (no DOTALL flag). */
  predicate IsLineTerminator(c: char)
  {
    c == '\n' || c == '\r' || c == '\U{0085}' || c == '\U{2028}' || c == '\U{2029}'
  }
}
