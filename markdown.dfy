/** `renderMarkdown` (src/utils/markdown.js): four global regular-expression replacements applied in
    order, each modelled as a left-to-right scanner. A pattern `D(.*?)D` matches at the leftmost
    position where `D` starts and a later `D` closes it on the same line; the lazy group stops at the
    first closing `D`. Unmatched text is copied one character at a time. */
module Markdown {
  import opened Wrappers

  const StrongOpen := "<strong>"
  const StrongClose := "</strong>"
  const EmOpen := "<em>"
  const EmClose := "</em>"
  const CodeOpen := "<code class=\"bg-gray-100 px-1 rounded\">"
  const CodeClose := "</code>"
  const LineBreak := "<br>"

  /** The characters a regular-expression `.` does not match. */
  predicate IsLineTerminator(c: char) {
    c == '\n' || c == '\r' || c == '\U{2028}' || c == '\U{2029}'
  }

  predicate NoLineTerminator(s: string) {
    '\n' !in s && '\r' !in s && '\U{2028}' !in s && '\U{2029}' !in s
  }

  /** `d` starts at position `k` of `s`. */
  predicate StartsAt(s: string, d: string, k: int) {
    0 <= k <= |s| && d <= s[k..]
  }

  /** Where the lazy group `(.*?)` that starts at `j` ends: the first `k >= j` at which the closing
      delimiter `d` starts, provided no line terminator lies between; `None` when there is none. */
  function CloseAt(s: string, d: string, j: nat): (r: Option<nat>)
    requires j <= |s| && |d| > 0
    ensures r.Some? ==> j <= r.value && r.value + |d| <= |s| && StartsAt(s, d, r.value)
    ensures r.Some? ==> NoLineTerminator(s[j..r.value])
    ensures r.Some? ==> forall k :: j <= k < r.value ==> !StartsAt(s, d, k)
    decreases |s| - j
  {
    if d <= s[j..] then Some(j)
    else if j == |s| || IsLineTerminator(s[j]) then None
    else
      var r := CloseAt(s, d, j + 1);
      if r.Some? then
        assert s[j..r.value] == [s[j]] + s[j + 1..r.value];
        r
      else r
  }

  /** `s.replace(/D(.*?)D/g, open + '$1' + close)` for the delimiter `d`. */
  function Rewrite(s: string, d: string, open: string, close: string): string
    requires |d| > 0
    decreases |s|
  {
    if s == [] then []
    else if d <= s then
      match CloseAt(s, d, |d|)
      case Some(j) => open + s[|d|..j] + close + Rewrite(s[j + |d|..], d, open, close)
      case None => [s[0]] + Rewrite(s[1..], d, open, close)
    else [s[0]] + Rewrite(s[1..], d, open, close)
  }

  // The bold pattern: two stars, a lazy group, two stars.
  function Strong(s: string): string {
    Rewrite(s, "**", StrongOpen, StrongClose)
  }

  // The italic pattern: one star, a lazy group, one star.
  function Em(s: string): string {
    Rewrite(s, "*", EmOpen, EmClose)
  }

  // The inline-code pattern: a backtick, a lazy group, a backtick.
  function Code(s: string): string {
    Rewrite(s, "`", CodeOpen, CodeClose)
  }

  // Every newline replaced by a line-break tag: the output holds no newline.
  function Br(s: string): (r: string)
    ensures '\n' !in r
    decreases |s|
  {
    if s == [] then []
    else if s[0] == '\n' then LineBreak + Br(s[1..])
    else [s[0]] + Br(s[1..])
  }

  /** `renderMarkdown(text)`; `None` stands for `undefined` and `null`. */
  function RenderMarkdown(text: Option<string>): (html: string)
    ensures text.None? || text.value == "" ==> html == ""
    ensures '\n' !in html
  {
    if text.None? || text.value == "" then "" else Br(Code(Em(Strong(text.value))))
  }

  // ---------------------------------------------------------------------------------------------
  // Facts about the scanner

  /** Text before which no delimiter starts is copied unchanged. */
  lemma {:induction false} RewriteCopiesPrefix(pre: string, t: string, d: string, open: string, close: string)
    requires |d| > 0
    requires forall k :: 0 <= k < |pre| ==> !StartsAt(pre + t, d, k)
    ensures Rewrite(pre + t, d, open, close) == pre + Rewrite(t, d, open, close)
    decreases |pre|
  {
    if pre != [] {
      var s := pre + t;
      assert !StartsAt(s, d, 0);
      assert s[1..] == pre[1..] + t;
      forall k | 0 <= k < |pre[1..]| ensures !StartsAt(pre[1..] + t, d, k) {
        assert !StartsAt(s, d, k + 1);
        assert s[k + 1..] == (pre[1..] + t)[k..];
      }
      RewriteCopiesPrefix(pre[1..], t, d, open, close);
    } else {
      assert pre + t == t;
    }
  }

  /** Text in which the delimiter never starts is left unchanged. */
  lemma RewriteUntouched(s: string, d: string, open: string, close: string)
    requires |d| > 0
    requires forall k :: 0 <= k < |s| ==> !StartsAt(s, d, k)
    ensures Rewrite(s, d, open, close) == s
  {
    assert s + [] == s;
    RewriteCopiesPrefix(s, [], d, open, close);
  }

  /** A one-character delimiter that does not occur is never matched. */
  lemma AbsentCharUntouched(s: string, d: string, open: string, close: string)
    requires |d| == 1 && d[0] !in s
    ensures Rewrite(s, d, open, close) == s
  {
    forall k | 0 <= k < |s| ensures !StartsAt(s, d, k) {
      assert s[k..][0] == s[k];
    }
    RewriteUntouched(s, d, open, close);
  }

  /** `x` ends where the first closing delimiter after it starts: no delimiter starts inside `x + d` before `|x|`. */
  predicate ClosesAfter(x: string, d: string) {
    forall k :: 0 <= k < |x| ==> !StartsAt(x + d, d, k)
  }

  lemma {:induction false} CloseAtFindsEnd(s: string, d: string, x: string, rest: string, j: nat)
    requires |d| > 0 && s == d + x + d + rest
    requires NoLineTerminator(x) && ClosesAfter(x, d)
    requires |d| <= j <= |d| + |x|
    ensures CloseAt(s, d, j) == Some(|d| + |x|)
    decreases |d| + |x| - j
  {
    var e := |d| + |x|;
    assert s[e..] == d + rest;
    if j < e {
      var k := j - |d|;
      assert s[j..] == (x + d)[k..] + rest;
      assert !StartsAt(x + d, d, k);
      assert (x + d)[k..] == x[k..] + d;
      PrefixOfLonger(d, (x + d)[k..], rest);
      assert s[j] == x[k];
      CloseAtFindsEnd(s, d, x, rest, j + 1);
    }
  }

  lemma PrefixOfLonger(d: string, u: string, rest: string)
    requires |u| >= |d|
    ensures d <= u + rest <==> d <= u
  {
    assert (u + rest)[..|d|] == u[..|d|];
  }

  /** A delimited span on one line is wrapped in the tags, and scanning goes on after it. */
  lemma RewritePair(x: string, rest: string, d: string, open: string, close: string)
    requires |d| > 0 && NoLineTerminator(x) && ClosesAfter(x, d)
    ensures Rewrite(d + x + d + rest, d, open, close) == open + x + close + Rewrite(rest, d, open, close)
  {
    var s := d + x + d + rest;
    CloseAtFindsEnd(s, d, x, rest, |d|);
    assert s[|d|..|d| + |x|] == x;
    assert s[|d| + |x| + |d|..] == rest;
  }

  /** A one-character delimiter with no partner before the end of its line is left in place. */
  lemma UnpairedOnLine(rest: string, tail: string, d: string, open: string, close: string)
    requires (d == "*" || d == "`") && d[0] !in rest && NoLineTerminator(rest)
    requires tail == [] || IsLineTerminator(tail[0])
    ensures Rewrite(d + rest + tail, d, open, close) == d + rest + Rewrite(tail, d, open, close)
  {
    var s := d + rest + tail;
    UnpairedHasNoClose(rest, tail, d);
    assert s[1..] == rest + tail;
    AbsentPrefixCopied(rest, tail, d, open, close);
  }

  lemma UnpairedHasNoClose(rest: string, tail: string, d: string)
    requires (d == "*" || d == "`") && d[0] !in rest && NoLineTerminator(rest)
    requires tail == [] || IsLineTerminator(tail[0])
    ensures CloseAt(d + rest + tail, d, 1) == None
  {
    var s := d + rest + tail;
    forall k | 1 <= k < |rest| + 1 ensures s[k] != d[0] && !IsLineTerminator(s[k]) {
      assert s[k] == rest[k - 1];
    }
    CloseAtMissing(s, d, 1, |rest| + 1);
  }

  /** Text free of a one-character delimiter is copied by the scanner. */
  lemma AbsentPrefixCopied(rest: string, tail: string, d: string, open: string, close: string)
    requires |d| == 1 && d[0] !in rest
    ensures Rewrite(rest + tail, d, open, close) == rest + Rewrite(tail, d, open, close)
  {
    forall k | 0 <= k < |rest| ensures !StartsAt(rest + tail, d, k) {
      assert (rest + tail)[k..][0] == rest[k];
    }
    RewriteCopiesPrefix(rest, tail, d, open, close);
  }

  lemma {:induction false} CloseAtMissing(s: string, d: string, j: nat, e: nat)
    requires |d| == 1 && !IsLineTerminator(d[0]) && j <= e <= |s|
    requires forall k :: j <= k < e ==> s[k] != d[0] && !IsLineTerminator(s[k])
    requires e == |s| || IsLineTerminator(s[e])
    ensures CloseAt(s, d, j) == None
    decreases e - j
  {
    if j < e {
      assert s[j..][0] == s[j];
      CloseAtMissing(s, d, j + 1, e);
    } else if e < |s| {
      assert s[j..][0] == s[j];
    }
  }

  /** `Br` replaces each newline independently. */
  lemma {:induction false} BrConcat(a: string, b: string)
    ensures Br(a + b) == Br(a) + Br(b)
    decreases |a|
  {
    if a == [] {
      assert a + b == b;
    } else {
      assert (a + b)[1..] == a[1..] + b;
      BrConcat(a[1..], b);
    }
  }

  /** Text without newlines passes `Br` unchanged. */
  lemma {:induction false} BrUntouched(s: string)
    requires '\n' !in s
    ensures Br(s) == s
    decreases |s|
  {
    if s != [] {
      BrUntouched(s[1..]);
    }
  }

  // ---------------------------------------------------------------------------------------------
  // Facts about `renderMarkdown`

  /** Plain text: no markup characters and no line terminators. */
  predicate Plain(x: string) {
    '*' !in x && '`' !in x && NoLineTerminator(x)
  }

  lemma PlainAppend(a: string, b: string)
    requires Plain(a) && Plain(b)
    ensures Plain(a + b)
  {
  }

  /** The strong and emphasis tags survive the later replacements. */
  lemma TagsArePlain()
    ensures Plain(StrongOpen) && Plain(StrongClose) && Plain(EmOpen) && Plain(EmClose)
  {
    StrongTagsArePlain();
    EmTagsArePlain();
  }

  lemma StrongTagsArePlain()
    ensures Plain(StrongOpen) && Plain(StrongClose)
  {
  }

  lemma EmTagsArePlain()
    ensures Plain(EmOpen) && Plain(EmClose)
  {
  }

  /** The code element is produced by the third replacement, so only the newline one follows it. */
  lemma CodeTagsHaveNoNewline()
    ensures '\n' !in CodeOpen && '\n' !in CodeClose
  {
  }

  /** Plain text passes all four replacements unchanged. */
  lemma PlainUntouched(s: string)
    requires Plain(s)
    ensures Strong(s) == s && Em(s) == s && Code(s) == s && Br(s) == s
  {
    AbsentCharUntouched(s, "*", EmOpen, EmClose);
    AbsentCharUntouched(s, "`", CodeOpen, CodeClose);
    NoStarNoBold(s);
    BrUntouched(s);
  }

  lemma NoStarNoBold(s: string)
    requires '*' !in s
    ensures Strong(s) == s
  {
    forall k | 0 <= k < |s| ensures !StartsAt(s, "**", k) {
      assert s[k..][0] == s[k];
    }
    RewriteUntouched(s, "**", StrongOpen, StrongClose);
  }

  /** Text with no `*`, backtick or newline is returned unchanged. */
  lemma RenderPlain(s: string)
    requires s != [] && '*' !in s && '`' !in s && '\n' !in s
    ensures RenderMarkdown(Some(s)) == s
  {
    AbsentCharUntouched(s, "*", EmOpen, EmClose);
    NoStarNoBold(s);
    AbsentCharUntouched(s, "`", CodeOpen, CodeClose);
    BrUntouched(s);
  }

  lemma PlainClosesAfter(x: string, d: string)
    requires Plain(x) && |d| >= 1 && (d[0] == '*' || d[0] == '`')
    ensures ClosesAfter(x, d)
  {
    forall k | 0 <= k < |x| ensures !StartsAt(x + d, d, k) {
      assert (x + d)[k..][0] == x[k];
    }
  }

  /** A delimited plain span, alone, becomes the tagged span. */
  lemma WrapPlain(x: string, d: string, open: string, close: string)
    requires Plain(x) && (d == "**" || d == "*" || d == "`")
    ensures Rewrite(d + x + d, d, open, close) == open + x + close
  {
    PlainClosesAfter(x, d);
    RewritePair(x, [], d, open, close);
    assert d + x + d + [] == d + x + d;
    assert open + x + close + [] == open + x + close;
  }

  /** `**x**` becomes `<strong>x</strong>`: bold is matched before the italic pattern sees the stars. */
  lemma RenderBold(x: string)
    requires Plain(x)
    ensures RenderMarkdown(Some("**" + x + "**")) == StrongOpen + x + StrongClose
  {
    WrapPlain(x, "**", StrongOpen, StrongClose);
    TagsArePlain();
    PlainAppend(StrongOpen, x);
    PlainAppend(StrongOpen + x, StrongClose);
    PlainUntouched(StrongOpen + x + StrongClose);
  }

  /** `*x*`, for plain `x`, becomes `<em>x</em>`; with `x` empty, `**` has no closing `**` and
      so becomes an empty `<em></em>`. */
  lemma RenderItalic(x: string)
    requires Plain(x)
    ensures RenderMarkdown(Some("*" + x + "*")) == EmOpen + x + EmClose
  {
    var s := "*" + x + "*";
    if x == [] {
      LoneDoubleStarIsNotBold();
    } else {
      forall k | 0 <= k < |s| ensures !StartsAt(s, "**", k) {
        if 0 < k < |s| - 1 {
          assert s[k..][0] == x[k - 1];
        } else if k == 0 {
          assert s[k..][1] == x[0];
        }
      }
      RewriteUntouched(s, "**", StrongOpen, StrongClose);
    }
    WrapPlain(x, "*", EmOpen, EmClose);
    TagsArePlain();
    PlainAppend(EmOpen, x);
    PlainAppend(EmOpen + x, EmClose);
    PlainUntouched(EmOpen + x + EmClose);
  }

  /** `**` alone has no closing delimiter, so the bold pass leaves it. */
  lemma LoneDoubleStarIsNotBold()
    ensures Strong("**") == "**"
  {
  }

  /** `` `x` ``, for plain `x`, becomes a `<code>` element. */
  lemma RenderCode(x: string)
    requires Plain(x)
    ensures RenderMarkdown(Some("`" + x + "`")) == CodeOpen + x + CodeClose
  {
    var s := "`" + x + "`";
    assert '*' !in s;
    NoStarNoBold(s);
    AbsentCharUntouched(s, "*", EmOpen, EmClose);
    WrapPlain(x, "`", CodeOpen, CodeClose);
    CodeTagsHaveNoNewline();
    BrUntouched(CodeOpen + x + CodeClose);
  }

  /** Every newline becomes `<br>`: rendering two lines of plain text joins them with a line break. */
  lemma RenderLines(a: string, b: string)
    requires Plain(a) && Plain(b)
    ensures RenderMarkdown(Some(a + "\n" + b)) == a + LineBreak + b
  {
    var nb := "\n" + b;
    var s := a + nb;
    assert s == a + "\n" + b;
    assert '*' !in s && '`' !in s;
    NoStarNoBold(s);
    AbsentCharUntouched(s, "*", EmOpen, EmClose);
    AbsentCharUntouched(s, "`", CodeOpen, CodeClose);
    assert RenderMarkdown(Some(s)) == Br(s);
    PlainUntouched(a);
    PlainUntouched(b);
    BrConcat(a, nb);
    BrConcat("\n", b);
    assert Br("\n") == LineBreak;
  }

  /** An unpaired star or backtick stays in the output as it was. */
  lemma RenderUnpaired(pre: string, d: string, post: string)
    requires d == "*" || d == "`"
    requires Plain(pre) && Plain(post)
    ensures RenderMarkdown(Some(pre + d + post)) == pre + d + post
  {
    var s := pre + d + post;
    if d == "*" {
      LoneStarIsNotBold(pre, post);
      UnpairedCopied(pre, d, post, EmOpen, EmClose);
      assert '`' !in s;
      AbsentCharUntouched(s, "`", CodeOpen, CodeClose);
    } else {
      assert '*' !in s;
      NoStarNoBold(s);
      AbsentCharUntouched(s, "*", EmOpen, EmClose);
      UnpairedCopied(pre, d, post, CodeOpen, CodeClose);
    }
    assert '\n' !in s;
    BrUntouched(s);
  }

  /** A single star between plain texts never starts the bold pattern. */
  lemma LoneStarIsNotBold(pre: string, post: string)
    requires Plain(pre) && Plain(post)
    ensures Strong(pre + "*" + post) == pre + "*" + post
  {
    var s := pre + "*" + post;
    forall k | 0 <= k < |s| ensures !StartsAt(s, "**", k) {
      assert s[k..][0] == s[k];
      if k < |pre| {
        assert s[k] == pre[k];
      } else if k + 1 < |s| {
        assert s[k..][1] == post[k - |pre|];
      }
    }
    RewriteUntouched(s, "**", StrongOpen, StrongClose);
  }

  /** The scanner for `d` copies plain text around a lone `d`. */
  lemma UnpairedCopied(pre: string, d: string, post: string, open: string, close: string)
    requires d == "*" || d == "`"
    requires Plain(pre) && Plain(post)
    ensures Rewrite(pre + d + post, d, open, close) == pre + d + post
  {
    assert pre + d + post == pre + (d + post);
    AbsentPrefixCopied(pre, d + post, d, open, close);
    assert d + post + [] == d + post;
    UnpairedOnLine(post, [], d, open, close);
  }
}
