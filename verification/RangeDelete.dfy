/** Range deletes: the trailing-asterisk notation, and the escaped LIKE pattern that
    selects a subtree of keys (internal/usecase/record/delete.go,
    internal/infra/repository/postgres/record.go). */
module RangeDelete {

  /** SQL LIKE with ESCAPE '\'. */
  predicate Like(pattern: string, s: string)
    decreases |s| + |pattern|
  {
    if pattern == "" then s == ""
    else if pattern[0] == '%' then Like(pattern[1..], s) || (s != "" && Like(pattern, s[1..]))
    else if s == "" then false
    else if pattern[0] == '\\' then |pattern| >= 2 && s[0] == pattern[1] && Like(pattern[2..], s[1..])
    else (pattern[0] == '_' || s[0] == pattern[0]) && Like(pattern[1..], s[1..])
  }

  predicate Special(c: char) {
    c == '\\' || c == '%' || c == '_'
  }

  /** likeEscaper. */
  function Escape(s: string): string {
    if s == "" then "" else (if Special(s[0]) then ['\\', s[0]] else [s[0]]) + Escape(s[1..])
  }

  /** The row filter of QueryRecordSubtree. */
  predicate Selects(base: string, includeSelf: bool, uri: string) {
    (includeSelf && uri == base) || Like(Escape(base) + "/%", uri)
  }

  /** The filter a receiving server applies to the references it was sent. */
  predicate Forwarded(base: string, includeSelf: bool, uri: string) {
    (includeSelf && uri == base) || base + "/" <= uri
  }

  /** An escaped prefix matches itself literally, whatever it contains. */
  lemma {:induction false} EscapedPrefix(base: string, rest: string, s: string)
    ensures Like(Escape(base) + rest, s) <==> base <= s && Like(rest, s[|base|..])
  {
    if base == "" {
      assert Escape(base) + rest == rest && s[|base|..] == s;
    } else {
      var p := Escape(base) + rest;
      var tail := Escape(base[1..]) + rest;
      if Special(base[0]) {
        assert p[..2] == ['\\', base[0]] && p[2..] == tail;
      } else {
        assert p[0] == base[0] && p[1..] == tail;
      }
      if s != "" {
        EscapedPrefix(base[1..], rest, s[1..]);
        assert base <= s <==> base[0] == s[0] && base[1..] <= s[1..];
        if base <= s {
          assert s[1..][|base[1..]|..] == s[|base|..];
        }
      }
    }
  }

  lemma {:induction false} AnySuffix(s: string)
    ensures Like("%", s)
  {
    assert "%"[1..] == "";
    if s != "" {
      AnySuffix(s[1..]);
    }
  }

  lemma SlashThenAny(s: string)
    ensures Like("/%", s) <==> s != "" && s[0] == '/'
  {
    assert "/%"[1..] == "%";
    if s != "" {
      AnySuffix(s[1..]);
    }
  }

  /** The pattern selects base's own key (if asked) and exactly the keys that extend
      base by a '/' segment; the receiving server's prefix test agrees key by key. */
  lemma SelectsExactly(base: string, includeSelf: bool, uri: string)
    ensures Selects(base, includeSelf, uri) <==>
      (includeSelf && uri == base) || exists segment: string :: uri == base + "/" + segment
    ensures Selects(base, includeSelf, uri) <==> Forwarded(base, includeSelf, uri)
  {
    EscapedPrefix(base, "/%", uri);
    if base <= uri {
      SlashThenAny(uri[|base|..]);
    }
    if base + "/" <= uri {
      assert base <= uri && uri[|base|..][0] == '/';
      assert uri == base + "/" + uri[|base| + 1..];
    }
    if base <= uri && |base| < |uri| && uri[|base|] == '/' {
      assert base + "/" <= uri;
    }
    forall segment: string | uri == base + "/" + segment
      ensures base + "/" <= uri
    {
    }
  }

  /** A sibling that merely shares a string prefix is never selected. */
  lemma SiblingsSpared(base: string, includeSelf: bool, suffix: string)
    requires suffix != "" && suffix[0] != '/'
    ensures !Selects(base, includeSelf, base + suffix)
  {
    SelectsExactly(base, includeSelf, base + suffix);
    assert (base + suffix)[|base|] == suffix[0];
  }

  // ---- The notation ----

  datatype Target = Single(uri: string) | Range(base: string, includeSelf: bool) | Invalid

  function DropLast(s: string, n: nat): string
    requires n <= |s|
  {
    s[..|s| - n]
  }

  predicate EndsWith(s: string, suffix: string) {
    |suffix| <= |s| && s[|s| - |suffix|..] == suffix
  }

  /** parseRangeDeleteTarget; `keyed` tells which URIs parse as a cckv URI with a
      non-empty key. */
  function ParseTarget(uri: string, keyed: string -> bool): Target {
    if !EndsWith(uri, "*") then Single(uri)
    else
      var subtree := EndsWith(uri, "/*");
      var base := DropLast(uri, if subtree then 2 else 1);
      if '*' in base || !keyed(base) then Invalid else Range(base, !subtree)
  }

  // Both notations denote the range they spell. For a bare trailing asterisk this
  // holds exactly when the base does not itself end in a slash: a slash before the
  // asterisk already means the subtree alone.
  lemma TargetNotation(base: string, keyed: string -> bool)
    requires '*' !in base && keyed(base)
    ensures ParseTarget(base + "/*", keyed) == Range(base, false)
    ensures ParseTarget(base + "*", keyed) == Range(base, true) <==> !EndsWith(base, "/")
  {
    assert EndsWith(base + "/*", "/*") && EndsWith(base + "/*", "*");
    assert DropLast(base + "/*", 2) == base;
    assert EndsWith(base + "*", "*");
    assert DropLast(base + "*", 1) == base;
    if base != "" {
      assert (base + "*")[|base| - 1..] == [base[|base| - 1], '*'];
      assert base[|base| - 1..] == [base[|base| - 1]];
    }
  }
}
