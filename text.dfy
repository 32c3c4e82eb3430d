/**
 * String rules of the publisher: prefix and substring tests, trailing-slash
 * stripping of the blog address, resolution of a form's `action` against it,
 * and the shaping of the text that is posted.
 */
module Text {

  /** Python's `s.startswith(prefix)`. */
  predicate StartsWith(s: string, prefix: string) {
    |prefix| <= |s| && s[..|prefix|] == prefix
  }

  /** `t` occurs in `s` starting at index `i`. */
  ghost predicate OccursAt(s: string, t: string, i: int) {
    0 <= i && i + |t| <= |s| && s[i..i + |t|] == t
  }

  /** Python's `t in s` for strings: `t` is a substring of `s`. */
  function Contains(s: string, t: string): (b: bool)
    ensures b <==> exists i :: OccursAt(s, t, i)
    decreases |s|
  {
    if |t| > |s| then
      assert forall i :: !OccursAt(s, t, i);
      false
    else if s[..|t|] == t then
      assert OccursAt(s, t, 0);
      true
    else
      ShiftOccurrence(s, t);
      Contains(s[1..], t)
  }

  /** Past the first position, an occurrence in `s` is an occurrence in `s[1..]`, moved by one. */
  lemma ShiftOccurrence(s: string, t: string)
    requires |t| <= |s| && s[..|t|] != t
    ensures (exists i :: OccursAt(s, t, i)) <==> (exists i :: OccursAt(s[1..], t, i))
  {
    if i :| OccursAt(s, t, i) {
      assert i != 0;
      assert s[1..][i - 1..i - 1 + |t|] == s[i..i + |t|];
      assert OccursAt(s[1..], t, i - 1);
    }
    if i :| OccursAt(s[1..], t, i) {
      assert s[1..][i..i + |t|] == s[i + 1..i + 1 + |t|];
      assert OccursAt(s, t, i + 1);
    }
  }

  /** Python's `s.rstrip('/')`: every trailing slash removed. */
  function StripTrailingSlashes(s: string): (r: string)
    ensures StartsWith(s, r)
    ensures r == [] || r[|r| - 1] != '/'
    ensures forall i :: |r| <= i < |s| ==> s[i] == '/'
    decreases |s|
  {
    if s != [] && s[|s| - 1] == '/' then StripTrailingSlashes(s[..|s| - 1]) else s
  }

  /**
   * The URL a form is submitted to: the base address joined to the form's
   * `action`, adding a `/` unless the action already starts with one.
   */
  function ResolveAction(base: string, action: string): string {
    if StartsWith(action, "/") then base + action else base + "/" + action
  }

  /**
   * Exactly one separator lies between the base and the action's relative
   * path, and the base is kept in front of every action, absolute ones included.
   */
  lemma ResolveActionJoins(base: string, action: string)
    ensures ResolveAction(base, action) == base + "/" + (if StartsWith(action, "/") then action[1..] else action)
    ensures StartsWith(ResolveAction(base, action), base + "/")
    ensures |ResolveAction(base, action)| == |base| + 1 + |action| - (if StartsWith(action, "/") then 1 else 0)
  {
    if StartsWith(action, "/") {
      assert action == "/" + action[1..];
    }
  }

  /** Python's `s[:n]` for `n >= 0`. */
  function Take(s: string, n: nat): (r: string)
    ensures |r| == (if |s| <= n then |s| else n)
    ensures StartsWith(s, r)
  {
    if |s| <= n then s else s[..n]
  }

  /** The longest text the publisher sends, and the marker that ends a cut text. */
  const MaxPostLength: nat := 500
  const Ellipsis: string := "..."

  /** A text cut to `MaxPostLength`, ending in `Ellipsis` when it had to be cut. */
  function Truncated(s: string): string {
    if |s| > MaxPostLength then s[..MaxPostLength - |Ellipsis|] + Ellipsis else s
  }

  /**
   * A cut text is never longer than `MaxPostLength`; it is left alone exactly
   * when it fits, and otherwise is its first characters followed by `Ellipsis`,
   * exactly `MaxPostLength` long.
   */
  lemma TruncatedBounds(s: string)
    ensures |Truncated(s)| <= MaxPostLength
    ensures |s| <= MaxPostLength <==> Truncated(s) == s
    ensures |s| > MaxPostLength ==>
              var r := Truncated(s);
              |r| == MaxPostLength
              && StartsWith(s, r[..MaxPostLength - |Ellipsis|])
              && r[MaxPostLength - |Ellipsis|..] == Ellipsis
  {
    if |s| > MaxPostLength {
      var r := Truncated(s);
      assert r[..MaxPostLength - |Ellipsis|] == s[..MaxPostLength - |Ellipsis|];
    }
  }

  /** The text a blog post is published as: title, a blank line, the content, cut to length. */
  function PostText(title: string, content: string): string {
    Truncated(title + "\n\n" + content)
  }

  /**
   * The published text is title, blank line and content when that fits in
   * `MaxPostLength`, and otherwise exactly `MaxPostLength` long ending in
   * `Ellipsis`; either way it starts with as much of the title as fits before
   * the ellipsis.
   */
  lemma PostTextShape(title: string, content: string)
    ensures var full := |title| + 2 + |content|;
            |PostText(title, content)| == (if full > MaxPostLength then MaxPostLength else full)
    ensures |title| + 2 + |content| <= MaxPostLength ==> PostText(title, content) == title + "\n\n" + content
    ensures |title| + 2 + |content| > MaxPostLength ==> PostText(title, content)[MaxPostLength - |Ellipsis|..] == Ellipsis
    ensures StartsWith(PostText(title, content), Take(title, MaxPostLength - |Ellipsis|))
  {
    var full := title + "\n\n" + content;
    assert |full| == |title| + 2 + |content|;
    TruncatedBounds(full);
    assert StartsWith(full, Take(title, MaxPostLength - |Ellipsis|)) by {
      assert full[..|title|] == title;
    }
  }
}
