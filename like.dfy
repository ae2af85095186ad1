/** PostgreSQL's LIKE and ILIKE pattern match, used by the todo search:
    `%` matches any run of characters, `_` any one character, and a backslash
    makes the next character literal. ILIKE folds case on both sides. */
module Like {
  import opened Base

  /** `s LIKE p`. */
  predicate Like(p: string, s: string)
    decreases |p| + |s|
  {
    if p == [] then s == []
    else if p[0] == '%' then Like(p[1..], s) || (s != [] && Like(p, s[1..]))
    else if p[0] == '_' then s != [] && Like(p[1..], s[1..])
    else if p[0] == '\\' && |p| >= 2 then s != [] && s[0] == p[1] && Like(p[2..], s[1..])
    else s != [] && s[0] == p[0] && Like(p[1..], s[1..])
  }

  /** `s ILIKE p`. */
  predicate ILike(s: string, p: string)
  {
    Like(Lower(p), Lower(s))
  }

  /** The pattern `%text%` that the search sends. */
  function Surround(text: string): (p: string)
    ensures |p| == |text| + 2 && p[0] == '%' && p[|p| - 1] == '%'
  {
    "%" + text + "%"
  }

  /** No character of `q` has a meaning in a pattern. */
  predicate NoWildcards(q: string)
  {
    forall i :: 0 <= i < |q| ==> q[i] != '%' && q[i] != '_' && q[i] != '\\'
  }

  /** A lone `%` matches everything. */
  lemma {:induction false} PercentMatchesAll(s: string)
    ensures Like("%", s)
    decreases |s|
  {
    if s != [] {
      PercentMatchesAll(s[1..]);
    }
  }

  /** A leading `%` skips any prefix. */
  lemma {:induction false} LeadingPercent(r: string, s: string)
    ensures Like(['%'] + r, s) <==> exists k :: 0 <= k <= |s| && Like(r, s[k..])
    decreases |s|
  {
    var p := ['%'] + r;
    assert p[1..] == r;
    if s == [] {
      assert s[0..] == s;
    } else {
      LeadingPercent(r, s[1..]);
      if Like(p, s) {
        if Like(r, s) {
          assert s[0..] == s;
        } else {
          var k :| 0 <= k <= |s[1..]| && Like(r, s[1..][k..]);
          assert s[1..][k..] == s[k + 1..];
        }
      }
      if exists k :: 0 <= k <= |s| && Like(r, s[k..]) {
        var k :| 0 <= k <= |s| && Like(r, s[k..]);
        if k == 0 {
          assert s[0..] == s;
        } else {
          assert s[1..][k - 1..] == s[k..];
        }
      }
    }
  }

  /** Literal text then `%`: the text is a prefix. */
  lemma {:induction false} LiteralThenPercent(q: string, s: string)
    requires NoWildcards(q)
    ensures Like(q + "%", s) <==> |q| <= |s| && s[..|q|] == q
    decreases |q|
  {
    if q == [] {
      assert q + "%" == "%";
      PercentMatchesAll(s);
    } else {
      var p := q + "%";
      assert p[0] == q[0] && p[1..] == q[1..] + "%";
      assert NoWildcards(q[1..]) by {
        forall i | 0 <= i < |q[1..]| ensures q[1..][i] != '%' && q[1..][i] != '_' && q[1..][i] != '\\' {
          assert q[1..][i] == q[i + 1];
        }
      }
      assert q[0] != '%' && q[0] != '_' && q[0] != '\\';
      if s != [] {
        LiteralThenPercent(q[1..], s[1..]);
        if |q| <= |s| {
          assert s[..|q|] == [s[0]] + s[1..][..|q| - 1];
          assert q == [q[0]] + q[1..];
        }
      }
    }
  }

  /** `%q%` matches exactly the texts that contain `q`, when `q` has no wildcard. */
  lemma SurroundedLiteral(q: string, s: string)
    requires NoWildcards(q)
    ensures Like(Surround(q), s) <==> IsSubstring(q, s)
  {
    assert Surround(q) == ['%'] + (q + "%");
    LeadingPercent(q + "%", s);
    if Like(Surround(q), s) {
      var k :| 0 <= k <= |s| && Like(q + "%", s[k..]);
      LiteralThenPercent(q, s[k..]);
      assert s[k..][..|q|] == s[k..k + |q|];
      assert OccursAt(q, s, k);
    }
    if IsSubstring(q, s) {
      var k :| 0 <= k <= |s| - |q| && OccursAt(q, s, k);
      LiteralThenPercent(q, s[k..]);
      assert s[k..][..|q|] == s[k..k + |q|];
    }
  }

  /** Lower-casing a pattern keeps it free of wildcards. */
  lemma LowerKeepsNoWildcards(q: string)
    requires NoWildcards(q)
    ensures NoWildcards(Lower(q))
  {
  }

  /** The search finds `text` in `s` ignoring case, when `text` has no wildcard. */
  lemma SearchIsSubstring(text: string, s: string)
    requires NoWildcards(text)
    ensures ILike(s, Surround(text)) <==> ContainsIgnoringCase(s, text)
  {
    assert Lower(Surround(text)) == Surround(Lower(text)) by {
      var a := Lower(Surround(text));
      var b := Surround(Lower(text));
      assert |a| == |b|;
      forall i | 0 <= i < |a| ensures a[i] == b[i] {
        if 0 < i < |a| - 1 {
          assert Surround(text)[i] == text[i - 1];
        }
      }
    }
    LowerKeepsNoWildcards(text);
    SurroundedLiteral(Lower(text), Lower(s));
  }

  /** A wildcard in the search is not taken literally: searching for `_`
      finds every nonempty text. */
  lemma UnderscoreSearchMatchesAny(s: string)
    ensures ILike(s, Surround("_")) <==> s != []
  {
    var p := Surround("_");
    assert Lower(p) == "%_%";
    var t := Lower(s);
    assert "%_%" == ['%'] + "_%";
    LeadingPercent("_%", t);
    if t != [] {
      assert "_%"[1..] == "%";
      PercentMatchesAll(t[1..]);
      assert t[0..] == t;
      assert Like("_%", t[0..]);
    } else {
      assert !Like("_%", t[0..]);
    }
  }
}
