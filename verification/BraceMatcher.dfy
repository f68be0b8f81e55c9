/** validate_policy_catalog.py: cutting the body of one `{...}` object out of a Rego file. */
module BraceMatcher {
  import opened Wrappers

  /** Text whose braces match, as a tree: plain characters and nested objects. */
  datatype Nested = End | Plain(c: char, rest: Nested) | Object(body: Nested, rest: Nested)

  function Render(t: Nested): string
  {
    match t
    case End => ""
    case Plain(c, rest) => [c] + Render(rest)
    case Object(body, rest) => "{" + Render(body) + "}" + Render(rest)
  }

  /** No plain character is a brace. */
  predicate Braceless(t: Nested)
  {
    match t
    case End => true
    case Plain(c, rest) => c != '{' && c != '}' && Braceless(rest)
    case Object(body, rest) => Braceless(body) && Braceless(rest)
  }

  function Weight(c: char): int { if c == '{' then 1 else if c == '}' then -1 else 0 }

  /** Opening minus closing braces. */
  function Depth(s: string): int { if s == [] then 0 else Depth(s[..|s| - 1]) + Weight(s[|s| - 1]) }

  predicate NeverBelowZero(s: string) { forall k :: 0 <= k <= |s| ==> Depth(s[..k]) >= 0 }

  predicate Matched(s: string) { Depth(s) == 0 && NeverBelowZero(s) }

  lemma {:induction false} DepthAppend(a: string, b: string)
    ensures Depth(a + b) == Depth(a) + Depth(b)
    decreases |b|
  {
    if b == [] {
      assert a + b == a;
    } else {
      assert (a + b)[..|a + b| - 1] == a + b[..|b| - 1];
      DepthAppend(a, b[..|b| - 1]);
    }
  }

  lemma {:induction false} DepthOne(c: char)
    ensures Depth([c]) == Weight(c)
  {
    assert [c][..0] == [];
  }

  /** An opening brace, some text, a closing brace, more text. */
  lemma {:induction false} DepthBraced(a: string, b: string)
    ensures Depth("{" + a) == 1 + Depth(a)
    ensures Depth("{" + a + "}") == Depth(a)
    ensures Depth("{" + a + "}" + b) == Depth(a) + Depth(b)
  {
    DepthOne('{');
    DepthOne('}');
    DepthAppend("{", a);
    DepthAppend("{" + a, "}");
    DepthAppend("{" + a + "}", b);
  }

  // ----- Matched text is exactly the text whose depth returns to zero and never dips ---------

  lemma {:induction false} PlainKeepsMatched(c: char, rest: string)
    requires Weight(c) == 0 && Matched(rest)
    ensures Matched([c] + rest)
  {
    DepthOne(c);
    DepthAppend([c], rest);
    var s := [c] + rest;
    forall k | 0 <= k <= |s|
      ensures Depth(s[..k]) >= 0
    {
      if k > 0 {
        assert s[..k] == [c] + rest[..k - 1];
        DepthAppend([c], rest[..k - 1]);
      }
    }
  }

  lemma {:induction false} BracesKeepMatched(inner: string, rest: string)
    requires Matched(inner) && Matched(rest)
    ensures Matched("{" + inner + "}" + rest)
  {
    var s := "{" + inner + "}" + rest;
    DepthBraced(inner, rest);
    forall k | 0 <= k <= |s|
      ensures Depth(s[..k]) >= 0
    {
      BracedPrefix(inner, rest, k);
    }
  }

  lemma {:induction false} BracedPrefix(inner: string, rest: string, k: nat)
    requires Matched(inner) && NeverBelowZero(rest) && k <= |inner| + |rest| + 2
    ensures Depth(("{" + inner + "}" + rest)[..k]) >= 0
  {
    var s := "{" + inner + "}" + rest;
    if 0 < k <= |inner| + 1 {
      assert s[..k] == "{" + inner[..k - 1];
      DepthBraced(inner[..k - 1], "");
    } else if k > |inner| + 1 {
      assert s[..k] == "{" + inner + "}" + rest[..k - |inner| - 2];
      DepthBraced(inner, rest[..k - |inner| - 2]);
    }
  }

  lemma {:induction false} RenderedMatches(t: Nested)
    requires Braceless(t)
    ensures Matched(Render(t))
  {
    match t
    case End =>
    case Plain(c, rest) =>
      RenderedMatches(rest);
      PlainKeepsMatched(c, Render(rest));
    case Object(body, rest) =>
      RenderedMatches(body);
      RenderedMatches(rest);
      BracesKeepMatched(Render(body), Render(rest));
  }

  /** Where a text that starts with an opening brace first returns to depth zero. */
  predicate Closes(s: string, end: nat) {
    && 2 <= end <= |s| && Depth(s[..end]) == 0
    && forall k :: 1 <= k < end ==> Depth(s[..k]) >= 1
  }

  lemma {:induction false} ClosingBrace(s: string, end: nat)
    requires s != [] && s[0] == '{' && Closes(s, end)
    ensures var body := s[1..end - 1];
      s[..end] == "{" + body + "}" && Matched(body)
  {
    var body := s[1..end - 1];
    assert s[..end][..end - 1] == s[..end - 1];
    assert Depth(s[..end - 1]) >= 1;
    assert s[..end] == "{" + body + "}";
    DepthBraced(body, "");
    forall k | 0 <= k <= |body|
      ensures Depth(body[..k]) >= 0
    {
      assert s[..k + 1] == "{" + body[..k];
      DepthBraced(body[..k], "");
    }
  }

  lemma {:induction false} FirstReturn(s: string, from: nat) returns (end: nat)
    requires s != [] && s[0] == '{' && Depth(s) == 0
    requires 1 <= from <= |s| && forall k :: 1 <= k < from ==> Depth(s[..k]) >= 1
    requires NeverBelowZero(s)
    ensures Closes(s, end)
    decreases |s| - from
  {
    assert s[..1] == "{" && s[..|s|] == s;
    DepthOne('{');
    assert Depth(s[..from]) >= 0;
    if Depth(s[..from]) == 0 {
      end := from;
    } else {
      end := FirstReturn(s, from + 1);
    }
  }

  lemma {:induction false} Parse(s: string) returns (t: Nested)
    requires Matched(s)
    ensures Braceless(t) && Render(t) == s
    decreases |s|
  {
    if s == [] { return End; }
    assert s[..1] == [s[0]];
    DepthOne(s[0]);
    assert Depth(s[..1]) >= 0;
    if s[0] == '{' {
      var end := FirstReturn(s, 1);
      ClosingBrace(s, end);
      var body := Parse(s[1..end - 1]);
      SuffixStaysAbove(s, end);
      var rest := Parse(s[end..]);
      t := Object(body, rest);
      assert s == s[..end] + s[end..];
    } else {
      SuffixStaysAbove(s, 1);
      var rest := Parse(s[1..]);
      t := Plain(s[0], rest);
    }
  }

  lemma {:induction false} SuffixStaysAbove(s: string, n: nat)
    requires n <= |s| && Depth(s[..n]) == 0 && NeverBelowZero(s)
    ensures Depth(s[n..]) == Depth(s) && NeverBelowZero(s[n..])
  {
    assert s == s[..n] + s[n..];
    DepthAppend(s[..n], s[n..]);
    forall k | 0 <= k <= |s| - n
      ensures Depth(s[n..][..k]) >= 0
    {
      assert s[..n + k] == s[..n] + s[n..][..k];
      DepthAppend(s[..n], s[n..][..k]);
    }
  }

  /** A matched object at the front of a text is where the depth first returns to zero. */
  lemma {:induction false} ObjectCloses(s: string, t: Nested)
    requires Braceless(t) && "{" + Render(t) + "}" <= s
    ensures Closes(s, |Render(t)| + 2)
  {
    var body := Render(t);
    assert s[..|body| + 2] == "{" + body + "}";
    RenderedMatches(t);
    DepthBraced(body, "");
    forall k | 1 <= k < |body| + 2
      ensures Depth(s[..k]) >= 1
    {
      assert s[..k] == "{" + body[..k - 1];
      DepthBraced(body[..k - 1], "");
    }
  }

  lemma {:induction false} DepthStep(s: string, k: nat)
    requires k < |s|
    ensures Depth(s[..k + 1]) == Depth(s[..k]) + Weight(s[k])
  {
    assert s[..k + 1][..k] == s[..k];
  }

  /** The answer for a text that begins with the opening brace. */
  ghost predicate FindsObject(s: string, r: Option<string>) {
    && (r.Some? ==> "{" + r.value + "}" <= s && exists t :: Braceless(t) && Render(t) == r.value)
    && forall t :: Braceless(t) && "{" + Render(t) + "}" <= s ==> r == Some(Render(t))
  }

  lemma {:induction false} ClosingFindsObject(s: string, end: nat)
    requires s != [] && s[0] == '{' && Closes(s, end)
    ensures FindsObject(s, Some(s[1..end - 1]))
  {
    ClosingBrace(s, end);
    var tree := Parse(s[1..end - 1]);
    forall t | Braceless(t) && "{" + Render(t) + "}" <= s
      ensures Render(t) == s[1..end - 1]
    {
      ObjectCloses(s, t);
      assert |Render(t)| + 2 == end;
      assert s[..end] == "{" + Render(t) + "}";
    }
  }

  lemma {:induction false} NeverClosingFindsNothing(s: string)
    requires forall k :: 1 <= k <= |s| ==> Depth(s[..k]) >= 1
    ensures FindsObject(s, None)
  {
    forall t | Braceless(t) && "{" + Render(t) + "}" <= s
      ensures false
    {
      ObjectCloses(s, t);
    }
  }

  /**
   The body between the brace at `start` and its partner. Any matched object that begins at
   `start` is the one found, and None means that no matched object begins there.
   */
  method SliceObjectBody(text: string, start: nat) returns (r: Option<string>)
    requires start < |text| && text[start] == '{'
    ensures r.Some? ==> "{" + r.value + "}" <= text[start..] && exists t :: Braceless(t) && Render(t) == r.value
    ensures forall t :: Braceless(t) && "{" + Render(t) + "}" <= text[start..] ==> r == Some(Render(t))
  {
    ghost var s := text[start..];
    var depth := 0;
    for index := start to |text|
      invariant depth == Depth(s[..index - start])
      invariant forall k :: 1 <= k <= index - start ==> Depth(s[..k]) >= 1
    {
      var c := text[index];
      DepthStep(s, index - start);
      if c == '{' {
        depth := depth + 1;
      } else if c == '}' {
        depth := depth - 1;
        if depth == 0 {
          r := Some(text[start + 1..index]);
          assert r.value == s[1..index - start];
          ClosingFindsObject(s, index - start + 1);
          return;
        }
      }
    }
    r := None;
    NeverClosingFindsNothing(s);
  }
}
