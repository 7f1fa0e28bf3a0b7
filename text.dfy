/** String matching used by the search boxes: `toLowerCase` and `includes`. */
module Text {

  /** Lower-case mapping of one character; only the ASCII letters change. */
  function LowerChar(c: char): char
  {
    if 'A' <= c <= 'Z' then (c as int + 32) as char else c
  }

  /** `s.toLowerCase()`. */
  function Lower(s: string): (r: string)
    ensures |r| == |s|
  {
    seq(|s|, i requires 0 <= i < |s| => LowerChar(s[i]))
  }

  /** `text.includes(pattern)`: `pattern` occurs in `text` at some position. */
  predicate Contains(text: string, pattern: string)
  {
    exists i :: 0 <= i <= |text| && pattern <= text[i..]
  }

  lemma LowerIsIdempotent(s: string)
    ensures Lower(Lower(s)) == Lower(s)
  {
    forall i | 0 <= i < |s| ensures Lower(Lower(s))[i] == Lower(s)[i] {
      assert Lower(s)[i] == LowerChar(s[i]);
    }
  }

  /** The empty string occurs in every string. */
  lemma ContainsEmpty(text: string)
    ensures Contains(text, "")
  {
    assert "" <= text[0..];
  }

  /** The search rule both list pages apply: the lower-cased term occurs in the
      lower-cased title, in the lower-cased body text or in some lower-cased tag. */
  predicate SearchMatches(title: string, body: string, tags: seq<string>, term: string)
  {
    var t := Lower(term);
    || Contains(Lower(title), t)
    || Contains(Lower(body), t)
    || exists tag :: tag in tags && Contains(Lower(tag), t)
  }

  /** An empty search term matches every item. */
  lemma EmptySearchMatches(title: string, body: string, tags: seq<string>)
    ensures SearchMatches(title, body, tags, "")
  {
    assert Lower("") == "";
    ContainsEmpty(Lower(title));
  }

  /** The search ignores the case of the term. */
  lemma SearchIgnoresCase(title: string, body: string, tags: seq<string>, term: string)
    ensures SearchMatches(title, body, tags, Lower(term)) == SearchMatches(title, body, tags, term)
  {
    LowerIsIdempotent(term);
  }
}
