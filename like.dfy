/** SQLite's case-insensitive `LIKE`, as the franchise name search uses it:
    `ilike` is rendered as `lower(name) LIKE lower(pattern)`, with no escape
    character, so `%` matches any run of characters and `_` any single
    character wherever they occur in the search text. SQLite folds only the
    ASCII letters. */
module SqlLike {

  /** SQLite's `lower()` on one character: ASCII letters only. */
  function Lower(c: char): (d: char)
    ensures 'A' <= c <= 'Z' ==> 'a' <= d <= 'z' && d as int == c as int + 32
    ensures !('A' <= c <= 'Z') ==> d == c
  {
    if 'A' <= c <= 'Z' then (c as int + 32) as char else c
  }

  /** `s LIKE p` after both sides are lowered. */
  predicate Like(s: string, p: string)
    decreases |s| + |p|
  {
    if p == [] then s == []
    else if p[0] == '%' then Like(s, p[1..]) || (s != [] && Like(s[1..], p))
    else s != [] && (p[0] == '_' || Lower(s[0]) == Lower(p[0])) && Like(s[1..], p[1..])
  }

  /** The pattern has no wildcard: it only matches letters. */
  predicate Plain(t: string)
  {
    forall i :: 0 <= i < |t| ==> t[i] != '%' && t[i] != '_'
  }

  /** `a` and `b` are equal once lowered. */
  predicate EqualIgnoringCase(a: string, b: string)
  {
    |a| == |b| && forall i :: 0 <= i < |a| ==> Lower(a[i]) == Lower(b[i])
  }

  /** `t` occurs in `s` from position `i` on, ignoring case. */
  predicate OccursAt(s: string, t: string, i: int)
  {
    0 <= i && i + |t| <= |s| && EqualIgnoringCase(s[i..i + |t|], t)
  }

  /** `t` occurs somewhere in `s`, ignoring case. */
  ghost predicate ContainsIgnoringCase(s: string, t: string)
  {
    exists i :: OccursAt(s, t, i)
  }

  /** A lone `%` matches every string. */
  lemma {:induction false} PercentMatchesAll(s: string)
    ensures Like(s, "%")
  {
    if s != [] {
      PercentMatchesAll(s[1..]);
    }
  }

  /** A plain text followed by `%` matches exactly the strings that start
      with that text, ignoring case. */
  lemma {:induction false} PrefixPattern(s: string, t: string)
    requires Plain(t)
    ensures Like(s, t + "%") <==> |t| <= |s| && EqualIgnoringCase(s[..|t|], t)
  {
    if t == [] {
      assert t + "%" == "%";
      PercentMatchesAll(s);
    } else {
      assert (t + "%")[1..] == t[1..] + "%";
      assert Plain(t[1..]) by {
        forall i | 0 <= i < |t[1..]| ensures t[1..][i] != '%' && t[1..][i] != '_' {
          assert t[1..][i] == t[i + 1];
        }
      }
      if s != [] {
        PrefixPattern(s[1..], t[1..]);
        if |t| <= |s| {
          assert s[..|t|] == [s[0]] + s[1..][..|t[1..]|];
          assert t == [t[0]] + t[1..];
        }
      }
    }
  }

  /** A leading `%` lets the rest of the pattern match any suffix. */
  lemma {:induction false} LeadingPercent(s: string, q: string)
    ensures Like(s, "%" + q) <==> exists i :: 0 <= i <= |s| && Like(s[i..], q)
  {
    assert ("%" + q)[1..] == q;
    if s == [] {
      assert s[0..] == s;
    } else {
      LeadingPercent(s[1..], q);
      assert s[0..] == s;
      if exists i :: 0 <= i <= |s| && Like(s[i..], q) {
        var i :| 0 <= i <= |s| && Like(s[i..], q);
        if i > 0 {
          assert s[1..][i - 1..] == s[i..];
        }
      }
      if exists j :: 0 <= j <= |s[1..]| && Like(s[1..][j..], q) {
        var j :| 0 <= j <= |s[1..]| && Like(s[1..][j..], q);
        assert s[1..][j..] == s[j + 1..];
      }
    }
  }

  /** The search `name ILIKE '%' || t || '%'` with a plain `t` keeps exactly
      the names that contain `t`, ignoring case. */
  lemma ContainsSearch(s: string, t: string)
    requires Plain(t)
    ensures Like(s, "%" + t + "%") <==> ContainsIgnoringCase(s, t)
  {
    assert "%" + t + "%" == "%" + (t + "%");
    LeadingPercent(s, t + "%");
    if ContainsIgnoringCase(s, t) {
      var i :| OccursAt(s, t, i);
      PrefixPattern(s[i..], t);
      assert s[i..][..|t|] == s[i..i + |t|];
    }
    if exists i :: 0 <= i <= |s| && Like(s[i..], t + "%") {
      var i :| 0 <= i <= |s| && Like(s[i..], t + "%");
      PrefixPattern(s[i..], t);
      assert s[i..][..|t|] == s[i..i + |t|];
      assert OccursAt(s, t, i);
    }
  }

  /** Because the search text is not escaped, `_` in it matches any one
      character: searching for "a_c" finds "ABC". */
  lemma UnderscoreIsWildcard()
    ensures Like("ABC", "%a_c%")
    ensures !ContainsIgnoringCase("ABC", "a_c")
  {
    assert Like("", "%");
    assert Like("C", "c%");
    assert Like("BC", "_c%");
    assert Like("ABC", "a_c%");
    assert ("%a_c%")[1..] == "a_c%";
    forall i | 0 <= i && i + 3 <= 3 ensures !OccursAt("ABC", "a_c", i) {
      assert Lower("ABC"[i..i + 3][1]) != Lower("a_c"[1]);
    }
  }
}
