/** The slug `createBlog` derives from a post's title when none is given:
    lower-case the title, replace every run of characters outside
    `[a-z0-9]` by one `-`, then drop a `-` at either end. */
module BlogSlug {
  import opened Common
  import opened Text

  predicate IsAlnum(c: char)
  {
    'a' <= c <= 'z' || '0' <= c <= '9'
  }

  /** A well-formed slug: only `[a-z0-9-]`, no `--`, no `-` at either end. */
  predicate IsSlug(s: string)
  {
    SlugChars(s) && NoDoubleDash(s) && (s != [] ==> s[0] != '-' && s[|s| - 1] != '-')
  }

  /** The letters and digits of `s`, in order. */
  function Alnums(s: string): string
  {
    if s == [] then [] else (if IsAlnum(s[0]) then [s[0]] else []) + Alnums(s[1..])
  }

  /** Drops the run of characters outside `[a-z0-9]` that starts `s`. */
  function SkipRun(s: string): (r: string)
    ensures |r| <= |s| && r == s[|s| - |r|..]
    ensures r == [] || IsAlnum(r[0])
    ensures s != [] && !IsAlnum(s[0]) ==> |r| < |s|
    ensures Alnums(r) == Alnums(s)
  {
    if s != [] && !IsAlnum(s[0]) then
      var r := SkipRun(s[1..]);
      assert s[1..][|s| - 1 - |r|..] == s[|s| - |r|..];
      assert Alnums(s) == Alnums(s[1..]);
      r
    else s
  }

  /** `.replace(/[^a-z0-9]+/g, '-')`. */
  function Collapse(s: string): string
    decreases |s|
  {
    if s == [] then []
    else if IsAlnum(s[0]) then [s[0]] + Collapse(s[1..])
    else "-" + Collapse(SkipRun(s))
  }

  predicate SlugChars(s: string)
  {
    forall i :: 0 <= i < |s| ==> IsAlnum(s[i]) || s[i] == '-'
  }

  predicate NoDoubleDash(s: string)
  {
    forall i :: 0 <= i < |s| - 1 ==> !(s[i] == '-' && s[i + 1] == '-')
  }

  /** The collapsed string uses only `[a-z0-9-]`, never has two dashes in a
      row, keeps every letter and digit in order, and starts with the
      input's first character when that is a letter or digit. */
  lemma {:induction false} CollapseShape(s: string)
    ensures SlugChars(Collapse(s)) && NoDoubleDash(Collapse(s))
    ensures s != [] && IsAlnum(s[0]) ==> Collapse(s) != [] && Collapse(s)[0] == s[0]
    ensures Alnums(Collapse(s)) == Alnums(s)
    decreases |s|
  {
    if s == [] {
    } else if IsAlnum(s[0]) {
      var rest := Collapse(s[1..]);
      CollapseShape(s[1..]);
      assert Collapse(s) == [s[0]] + rest;
      assert Alnums(Collapse(s)) == [s[0]] + Alnums(rest);
    } else {
      var u := SkipRun(s);
      var rest := Collapse(u);
      CollapseShape(u);
      assert Collapse(s) == "-" + rest;
      assert rest != [] ==> IsAlnum(rest[0]);
      assert Alnums(Collapse(s)) == Alnums(rest);
    }
  }

  /** `.replace(/(^-|-$)+/g, '')`: one `-` is dropped at the start and one
      at the end. */
  function StripDashes(s: string): string
  {
    var t := if s != [] && s[0] == '-' then s[1..] else s;
    if t != [] && t[|t| - 1] == '-' then t[..|t| - 1] else t
  }

  /** The slug of a title. */
  function Slugify(title: string): string
  {
    StripDashes(Collapse(Lower(title)))
  }

  /** `if (!blogData.slug) blogData.slug = ...`: a missing or empty slug is
      derived from the title, any other is kept. */
  function InsertSlug(slug: Option<string>, title: string): (r: string)
    ensures slug.Some? && slug.value != "" ==> r == slug.value
    ensures slug.None? || slug.value == "" ==> IsSlug(r)
  {
    SlugifyIsSlug(title);
    if slug.None? || slug.value == "" then Slugify(title) else slug.value
  }

  /** Every derived slug is well formed and keeps the title's letters and
      digits (lower-cased), in order. */
  lemma SlugifyIsSlug(title: string)
    ensures IsSlug(Slugify(title))
    ensures Alnums(Slugify(title)) == Alnums(Lower(title))
  {
    var c := Collapse(Lower(title));
    CollapseShape(Lower(title));
    StripKeepsShape(c);
    StripPreservesAlnums(c);
  }

  /** Dropping the edge dashes of a collapsed string gives a slug. */
  lemma StripKeepsShape(c: string)
    requires SlugChars(c) && NoDoubleDash(c)
    ensures IsSlug(StripDashes(c))
  {
    var t := if c != [] && c[0] == '-' then c[1..] else c;
    assert SlugChars(t) && NoDoubleDash(t);
    assert t != [] ==> t[0] != '-';
    var r := StripDashes(c);
    assert r == t || r == t[..|t| - 1];
    assert SlugChars(r) && NoDoubleDash(r);
  }

  /** Dropping edge dashes keeps the letters and digits. */
  lemma StripPreservesAlnums(s: string)
    ensures Alnums(StripDashes(s)) == Alnums(s)
  {
    var t := if s != [] && s[0] == '-' then s[1..] else s;
    assert Alnums(t) == Alnums(s) by {
      if s != [] && s[0] == '-' {
        AlnumsSplit([s[0]], s[1..]);
        assert s == [s[0]] + s[1..];
      }
    }
    if t != [] && t[|t| - 1] == '-' {
      var u := t[..|t| - 1];
      AlnumsSplit(u, [t[|t| - 1]]);
      assert t == u + [t[|t| - 1]];
      assert StripDashes(s) == u;
    }
  }

  lemma {:induction false} AlnumsSplit(a: string, b: string)
    ensures Alnums(a + b) == Alnums(a) + Alnums(b)
  {
    if a != [] {
      assert (a + b)[0] == a[0];
      assert (a + b)[1..] == a[1..] + b;
      AlnumsSplit(a[1..], b);
    } else {
      assert a + b == b;
    }
  }

  /** A string of `[a-z0-9-]` without `--` collapses to itself. */
  lemma {:induction false} CollapseFixed(s: string)
    requires SlugChars(s) && NoDoubleDash(s)
    ensures Collapse(s) == s
  {
    if s != [] {
      var tail := s[1..];
      SlugTail(s);
      CollapseFixed(tail);
      if !IsAlnum(s[0]) {
        assert SkipRun(tail) == tail;
      }
      assert s == [s[0]] + tail;
    }
  }

  /** The tail of a collapsed-shape string keeps the shape, and a dash is
      followed by a letter or digit. */
  lemma SlugTail(s: string)
    requires s != [] && SlugChars(s) && NoDoubleDash(s)
    ensures SlugChars(s[1..]) && NoDoubleDash(s[1..])
    ensures !IsAlnum(s[0]) ==> s[0] == '-' && (s[1..] != [] ==> IsAlnum(s[1..][0]))
  {
    var tail := s[1..];
    forall i | 0 <= i < |tail|
      ensures IsAlnum(tail[i]) || tail[i] == '-'
    {
      assert tail[i] == s[i + 1];
    }
    forall i | 0 <= i < |tail| - 1
      ensures !(tail[i] == '-' && tail[i + 1] == '-')
    {
      assert tail[i] == s[i + 1] && tail[i + 1] == s[i + 2];
    }
    if !IsAlnum(s[0]) && tail != [] {
      assert !(s[0] == '-' && s[1] == '-');
    }
  }

  /** A well-formed slug is its own slug. */
  lemma SlugFixedPoint(s: string)
    requires IsSlug(s)
    ensures Slugify(s) == s
  {
    assert Lower(s) == s;
    CollapseFixed(s);
  }

  /** Deriving the slug again gives the same slug. */
  lemma SlugifyIdempotent(title: string)
    ensures Slugify(Slugify(title)) == Slugify(title)
  {
    SlugifyIsSlug(title);
    SlugFixedPoint(Slugify(title));
  }

  /** A title with no letter or digit gives the empty slug. */
  lemma NoAlnumsEmptySlug(title: string)
    requires Alnums(Lower(title)) == []
    ensures Slugify(title) == ""
  {
    SlugifyIsSlug(title);
    SlugHasAlnum(Slugify(title));
  }

  /** A non-empty slug has a letter or digit (its first character). */
  lemma SlugHasAlnum(r: string)
    requires IsSlug(r)
    ensures r != [] ==> Alnums(r) != []
  {
    if r != [] {
      assert IsAlnum(r[0]);
      assert Alnums(r) == [r[0]] + Alnums(r[1..]);
    }
  }
}
