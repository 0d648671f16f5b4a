/**
 * What the home page and the all-posts page share: the card each post
 * is shown as, and the excerpt on it, which is
 * `content.replace(/<[^>]+>/g, '')` cut to its first 100 characters with
 * "..." appended.
 */
module Feed {
  import opened JsValues
  import opened Posts

  /** The "Published" line: a date, or the all-posts page's fallback text. */
  datatype Published = On(date: Timestamp) | UnknownDate

  /** One post as a feed card. */
  datatype Card = Card(
    id: string,
    title: string,
    excerpt: string,
    authorName: string,
    published: Published,
    likes: Shown,
    comments: Shown)

  const LoadFailed := "Failed to load blogs."

  const ExcerptLength := 100
  const Ellipsis := "..."

  /** Index of the first `>` in `s`. */
  function TagEnd(s: string): (r: nat)
    requires '>' in s
    ensures r < |s| && s[r] == '>' && '>' !in s[..r]
  {
    if s[0] == '>' then 0
    else
      assert '>' in s[1..] by { assert s == [s[0]] + s[1..]; }
      var k := TagEnd(s[1..]);
      assert s[..k + 1] == [s[0]] + s[1..][..k];
      k + 1
  }

  /**
   * The pattern `<[^>]+>` matches at position `i`: a `<`, then at least one
   * character that is not `>`, then a `>` somewhere after. The match runs
   * to the first such `>`.
   */
  predicate MatchAt(s: string, i: int)
    requires 0 <= i < |s|
    ensures MatchAt(s, i) ==> i + 2 < |s|
  {
    s[i] == '<' && i + 1 < |s| && s[i + 1] != '>' && '>' in s[i + 2..]
  }

  /** No match of the tag pattern anywhere: every `<` left is followed by `>` or by no `>` at all. */
  predicate TagFree(s: string) {
    forall i :: 0 <= i < |s| ==> !MatchAt(s, i)
  }

  /**
   * The global replace, scanning left to right: a match is removed whole
   * and scanning resumes after it; anywhere else one character is kept.
   */
  function StripTags(s: string): (r: string)
    ensures |r| <= |s|
    decreases |s|
  {
    if s == [] then []
    else if MatchAt(s, 0) then StripTags(s[TagEnd(s) + 1..])
    else [s[0]] + StripTags(s[1..])
  }

  /** `substring(0, 100)` followed by the literal "...". */
  function Excerpt(content: string): (r: string)
    ensures |r| == (if |StripTags(content)| < ExcerptLength then |StripTags(content)| else ExcerptLength) + 3
    ensures r[..|r| - 3] <= StripTags(content) && r[|r| - 3..] == Ellipsis
  {
    var plain := StripTags(content);
    var cut := if |plain| < ExcerptLength then |plain| else ExcerptLength;
    plain[..cut] + Ellipsis
  }

  /** Stripping only keeps characters of the input. */
  lemma {:induction false} StripTagsChars(s: string)
    ensures forall c :: c in StripTags(s) ==> c in s
    decreases |s|
  {
    if s == [] {
    } else if MatchAt(s, 0) {
      var rest := s[TagEnd(s) + 1..];
      StripTagsChars(rest);
      forall c | c in rest ensures c in s {
        var j :| 0 <= j < |rest| && rest[j] == c;
        assert s[TagEnd(s) + 1 + j] == c;
      }
    } else {
      StripTagsChars(s[1..]);
      assert s == [s[0]] + s[1..];
    }
  }

  /** A string made of the first character followed by the rest has a match at `i + 1` exactly when the rest has one at `i`. */
  lemma MatchAtShift(s: string, i: int)
    requires 0 <= i < |s| - 1
    ensures MatchAt(s, i + 1) <==> MatchAt(s[1..], i)
  {
    if i + 2 < |s| {
      assert s[i + 3..] == s[1..][i + 2..];
    }
  }

  /** After the replace no match is left: it is a fixed point. */
  lemma {:induction false} StripTagsTagFree(s: string)
    ensures TagFree(StripTags(s))
    decreases |s|
  {
    if s == [] {
    } else if MatchAt(s, 0) {
      StripTagsTagFree(s[TagEnd(s) + 1..]);
    } else {
      var tail := StripTags(s[1..]);
      var r := [s[0]] + tail;
      StripTagsTagFree(s[1..]);
      StripTagsChars(s[1..]);
      forall i | 0 <= i < |r| ensures !MatchAt(r, i) {
        if i > 0 {
          assert r[1..] == tail;
          MatchAtShift(r, i - 1);
        } else if s[0] == '<' && 1 < |r| {
          if |s| >= 2 && s[1] == '>' {
            // the `>` right after `<` survives, so `<>` is kept as it is
            assert !MatchAt(s[1..], 0);
            assert tail == [s[1]] + StripTags(s[1..][1..]);
          } else {
            // no `>` after the `<`, and stripping adds none
            assert '>' !in s[1..] by {
              assert s[1..] == [s[1]] + s[2..];
            }
            assert '>' !in r[2..] by {
              forall c | c in r[2..] ensures c in tail {
                var j :| 0 <= j < |r[2..]| && r[2..][j] == c;
                assert tail[j + 1] == c;
              }
            }
          }
        }
      }
    }
  }

  /** A string without matches passes through unchanged. */
  lemma {:induction false} TagFreeFixed(s: string)
    requires TagFree(s)
    ensures StripTags(s) == s
    decreases |s|
  {
    if s != [] {
      assert !MatchAt(s, 0);
      forall i | 0 <= i < |s[1..]| ensures !MatchAt(s[1..], i) {
        MatchAtShift(s, i);
      }
      TagFreeFixed(s[1..]);
      assert s == [s[0]] + s[1..];
    }
  }

  /** Stripping twice is stripping once. */
  lemma StripTagsIdempotent(s: string)
    ensures StripTags(StripTags(s)) == StripTags(s)
  {
    StripTagsTagFree(s);
    TagFreeFixed(StripTags(s));
  }

  /** A tag `<t>` at the front, with `t` non-empty and free of `>`, is removed whole. */
  lemma DropsTag(t: string, rest: string)
    requires t != [] && '>' !in t
    ensures StripTags("<" + t + ">" + rest) == StripTags(rest)
  {
    var s := "<" + t + ">" + rest;
    assert s[1] == t[0];
    assert s[|t| + 1] == '>';
    assert '>' in s[2..] by { assert s[2..][|t| - 1] == '>'; }
    assert MatchAt(s, 0);
    assert s[..|t| + 1] == "<" + t;
    assert s[|t| + 2..] == rest;
  }

  /** `<>` is not a tag: the pattern needs a character between the brackets. */
  lemma KeepsEmptyBrackets(rest: string)
    ensures StripTags("<>" + rest) == "<>" + StripTags(rest)
  {
    var s := "<>" + rest;
    assert !MatchAt(s, 0);
    assert s[1..] == ">" + rest;
    assert (">" + rest)[1..] == rest;
  }

  /** Text with no markup of at most 100 characters is shown whole, with "..." still appended. */
  lemma ShortPlainExcerpt(content: string)
    requires TagFree(content) && |content| <= ExcerptLength
    ensures Excerpt(content) == content + Ellipsis
  {
    TagFreeFixed(content);
    assert content[..|content|] == content;
  }

  /** Text with no markup longer than 100 characters is cut to its first 100. */
  lemma LongPlainExcerpt(content: string)
    requires TagFree(content) && |content| > ExcerptLength
    ensures Excerpt(content) == content[..ExcerptLength] + Ellipsis
  {
    TagFreeFixed(content);
  }
}
