/** The blog post page's reading-time estimate: tags stripped, the text
    split on white-space runs, 200 words a minute, at least one minute. */
module BlogDetail {
  import opened Common
  import opened Text

  /** The text after a tag that opened just before `s`: everything after
      the first `>`, or nothing when the tag is never closed. */
  function AfterTag(s: string): (r: string)
    ensures |r| <= |s|
  {
    if '>' in s then s[IndexOf(s, '>') + 1..] else ""
  }

  /** `replace(/<[^>]*>?/gm, '')`: every span from a `<` to the next `>`
      (or to the end of the text) is removed. */
  function StripTags(s: string): (r: string)
    ensures |r| <= |s|
    ensures '<' !in r
    decreases |s|
  {
    if s == [] then ""
    else if s[0] == '<' then StripTags(AfterTag(s[1..]))
    else [s[0]] + StripTags(s[1..])
  }

  /** `split(/\s+/)`: the pieces between maximal runs of white space, so
      leading or trailing white space gives an empty piece. */
  function SplitWs(s: string): (r: seq<string>)
    ensures |r| >= 1
  {
    if s == [] then [""]
    else
      var rest := SplitWs(s[1..]);
      if !IsSpace(s[0]) then [[s[0]] + rest[0]] + rest[1..]
      else if s[1..] != [] && IsSpace(s[1]) then rest
      else [""] + rest
  }

  /** `wordCount`: 0 for missing or empty content. */
  function WordCount(content: Option<string>): nat
  {
    if content.Some? && content.value != "" then |SplitWs(StripTags(content.value))| else 0
  }

  /** `Math.ceil(wordCount / 200) || 1`. */
  function ReadingTime(wordCount: nat): nat
  {
    var minutes := (wordCount + 199) / 200;
    if minutes == 0 then 1 else minutes
  }

  // ---- Properties ----

  /** Text without tags is left as it is. */
  lemma {:induction false} NoTagsUnchanged(s: string)
    requires '<' !in s
    ensures StripTags(s) == s
  {
    if s != [] {
      assert s == [s[0]] + s[1..];
      NoTagsUnchanged(s[1..]);
    }
  }

  /** A closed tag is removed with its content, the text around it kept. */
  lemma ClosedTagRemoved(a: string, b: string, c: string)
    requires '<' !in a && '>' !in b
    ensures StripTags(a + "<" + b + ">" + c) == a + StripTags(c)
  {
    var tag := "<" + b + ">" + c;
    assert a + "<" + b + ">" + c == a + tag;
    StripPrefix(a, tag);
    TagSkipped(b, c);
  }

  /** A tag at the start is dropped up to its first `>`. */
  lemma TagSkipped(b: string, c: string)
    requires '>' !in b
    ensures StripTags("<" + b + ">" + c) == StripTags(c)
  {
    var t := b + ">" + c;
    assert ("<" + b + ">" + c)[1..] == t;
    assert IndexOf(t, '>') == |b| by {
      assert t[|b|] == '>';
      assert t[..|b|] == b;
    }
    assert AfterTag(t) == c by {
      assert t[|b| + 1..] == c;
    }
  }

  /** An unclosed `<` removes everything to the end of the text. */
  lemma UnclosedTagRemovesRest(a: string, b: string)
    requires '<' !in a && '>' !in b
    ensures StripTags(a + "<" + b) == a
  {
    StripPrefix(a, "<" + b);
    assert ("<" + b)[1..] == b;
    assert a + "<" + b == a + ("<" + b);
  }

  /** Text before the first `<` is copied. */
  lemma {:induction false} StripPrefix(a: string, rest: string)
    requires '<' !in a
    ensures StripTags(a + rest) == a + StripTags(rest)
  {
    if a != [] {
      assert (a + rest)[0] == a[0];
      assert (a + rest)[1..] == a[1..] + rest;
      StripPrefix(a[1..], rest);
      assert a == [a[0]] + a[1..];
    } else {
      assert a + rest == rest;
    }
  }

  /** No piece holds white space. */
  lemma {:induction false} SplitWsPieces(s: string)
    ensures forall k, i :: 0 <= k < |SplitWs(s)| && 0 <= i < |SplitWs(s)[k]| ==> !IsSpace(SplitWs(s)[k][i])
  {
    if s != [] {
      SplitWsPieces(s[1..]);
      var rest := SplitWs(s[1..]);
      if !IsSpace(s[0]) {
        var head := [s[0]] + rest[0];
        assert forall i :: 0 <= i < |head| ==> !IsSpace(head[i]) by {
          forall i | 0 <= i < |head| ensures !IsSpace(head[i]) {
            if i > 0 {
              assert head[i] == rest[0][i - 1];
              assert 0 <= i - 1 < |rest[0]|;
            }
          }
        }
        var r := SplitWs(s);
        assert r == [head] + rest[1..];
        forall k, i | 0 <= k < |r| && 0 <= i < |r[k]|
          ensures !IsSpace(r[k][i])
        {
          if k > 0 {
            assert r[k] == rest[k];
          }
        }
      }
    }
  }

  /** A word without white space is one piece. */
  lemma {:induction false} SplitWsWord(s: string)
    requires forall i :: 0 <= i < |s| ==> !IsSpace(s[i])
    ensures SplitWs(s) == [s]
  {
    if s != [] {
      assert forall i :: 0 <= i < |s[1..]| ==> !IsSpace(s[1..][i]) by {
        forall i | 0 <= i < |s[1..]| ensures !IsSpace(s[1..][i]) {
          assert s[1..][i] == s[i + 1];
        }
      }
      SplitWsWord(s[1..]);
      assert s == [s[0]] + s[1..];
    }
  }

  /** Leading white space gives an empty first piece. */
  lemma SplitWsLeading(s: string)
    requires s != [] && IsSpace(s[0])
    ensures SplitWs(s)[0] == ""
  {
  }

  /** Trailing white space gives an empty last piece. */
  lemma {:induction false} SplitWsTrailing(s: string)
    requires s != [] && IsSpace(s[|s| - 1])
    ensures SplitWs(s)[|SplitWs(s)| - 1] == ""
  {
    var r := SplitWs(s);
    if |s| == 1 {
      assert r == [""] + SplitWs([]);
    } else {
      var rest := SplitWs(s[1..]);
      assert s[1..][|s[1..]| - 1] == s[|s| - 1];
      SplitWsTrailing(s[1..]);
      if !IsSpace(s[0]) {
        SplitWsSpaced(s[1..], |s| - 2);
        assert r == [[s[0]] + rest[0]] + rest[1..];
        assert r[|r| - 1] == rest[|rest| - 1];
      } else if IsSpace(s[1]) {
        assert r == rest;
      } else {
        assert r == [""] + rest;
        assert r[|r| - 1] == rest[|rest| - 1];
      }
    }
  }

  /** Any white space gives at least two pieces. */
  lemma {:induction false} SplitWsSpaced(s: string, i: int)
    requires 0 <= i < |s| && IsSpace(s[i])
    ensures |SplitWs(s)| >= 2
  {
    if !IsSpace(s[0]) {
      assert IsSpace(s[1..][i - 1]);
      SplitWsSpaced(s[1..], i - 1);
    } else if s[1..] != [] && IsSpace(s[1]) {
      assert IsSpace(s[1..][0]);
      SplitWsSpaced(s[1..], 0);
    }
  }

  /** The reading time is at least one minute, and for a non-zero count it
      is the count divided by 200, rounded up. */
  lemma ReadingTimeSpec(wordCount: nat)
    ensures ReadingTime(wordCount) >= 1
    ensures wordCount > 0 ==>
      (ReadingTime(wordCount) - 1) * 200 < wordCount <= ReadingTime(wordCount) * 200
    ensures wordCount == 0 ==> ReadingTime(wordCount) == 1
  {
  }

  /** Missing or empty content reads in one minute; 200 words take one
      minute and 201 take two. */
  lemma ReadingTimeExamples(content: Option<string>)
    requires content.None? || content == Some("")
    ensures WordCount(content) == 0 && ReadingTime(WordCount(content)) == 1
    ensures ReadingTime(1) == 1 && ReadingTime(200) == 1 && ReadingTime(201) == 2
  {
  }

  /** More words never read faster. */
  lemma ReadingTimeMonotone(a: nat, b: nat)
    requires a <= b
    ensures ReadingTime(a) <= ReadingTime(b)
  {
    assert (a + 199) / 200 <= (b + 199) / 200;
  }
}
