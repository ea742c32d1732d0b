/**
 * The `text` case of renderContent in public/script.js: the two global,
 * non-greedy regular-expression rewrites, bold and then code blocks, and
 * the paragraph wrapper around the result.
 */
module MessageFormat {
  import opened Wrappers
  import opened JsValues

  /**
   * A global replacement of `D(x*?)D` by `open + $1 + close`, where `D` is
   * a fixed delimiter and `x` is `.` (anything but a line terminator) or
   * `[\s\S]` (anything).
   */
  datatype Rule = Rule(delim: string, anyChar: bool, open: string, close: string)

  // The bold regex (two asterisks, a lazy `.` group, two asterisks) replaced by `<strong>$1</strong>`.
  const BoldRule: Rule := Rule("**", false, "<strong>", "</strong>")

  const CodeOpen: string := "<pre class=\"bg-gray-100 dark:bg-gray-800 p-2 rounded-md my-2 text-sm\"><code>"
  const CodeClose: string := "</code></pre>"

  // The code regex (three backticks, a lazy `[\s\S]` group, three backticks) replaced by the pre/code block.
  const CodeRule: Rule := Rule("```", true, CodeOpen, CodeClose)

  predicate Allowed(rule: Rule, c: char) {
    rule.anyChar || !IsLineTerminator(c)
  }

  /** `d` is a prefix of `s`. */
  predicate StartsWith(s: string, d: string) {
    d <= s
  }

  /**
   * The lazy group scanning from `k`: the first `k' >= k` where the closing
   * delimiter follows, provided every character of `s[k..k']` is allowed.
   */
  function CloseAt(s: string, rule: Rule, k: nat): (r: Option<nat>)
    requires k <= |s|
    ensures r.Some? ==> k <= r.value <= |s| - |rule.delim|
    decreases |s| - k
  {
    if StartsWith(s[k..], rule.delim) then Some(k)
    else if k < |s| && Allowed(rule, s[k]) then CloseAt(s, rule, k + 1)
    else None
  }

  /**
   * `s.replace(regex, replacement)` for a global regex of the rule's shape:
   * a match is tried at each position from left to right; after a match the
   * search resumes behind it, otherwise one character is kept.
   */
  function Rewrite(s: string, rule: Rule): string
    requires |rule.delim| > 0
    decreases |s|
  {
    if |s| == 0 then []
    else if StartsWith(s, rule.delim) && CloseAt(s, rule, |rule.delim|).Some? then
      var k := CloseAt(s, rule, |rule.delim|).value;
      rule.open + s[|rule.delim|..k] + rule.close + Rewrite(s[k + |rule.delim|..], rule)
    else [s[0]] + Rewrite(s[1..], rule)
  }

  /** The `text` case of renderContent (also the default for unknown types). */
  function RenderText(content: string): string {
    var html := Rewrite(content, BoldRule);
    var html' := Rewrite(html, CodeRule);
    "<p>" + html' + "</p>"
  }

  /** No occurrence of the delimiter starts at any position of `s`. */
  predicate NoDelimIn(s: string, d: string) {
    forall j | 0 <= j < |s| :: !StartsWith(s[j..], d)
  }

  /** No character of `s` is `c`. */
  predicate Lacks(s: string, c: char) {
    forall i | 0 <= i < |s| :: s[i] != c
  }

  lemma LacksConcat(a: string, b: string, c: char)
    requires Lacks(a, c) && Lacks(b, c)
    ensures Lacks(a + b, c)
  {
    forall i | 0 <= i < |a + b| ensures (a + b)[i] != c {
      if i >= |a| { assert (a + b)[i] == b[i - |a|]; }
    }
  }

  /** A text without the delimiter's first character holds no occurrence of it, even followed by anything. */
  lemma NoFirstCharNoDelim(p: string, rest: string, d: string)
    requires |d| > 0 && Lacks(p, d[0])
    ensures forall j | 0 <= j < |p| :: !StartsWith((p + rest)[j..], d)
    ensures NoDelimIn(p, d)
  {
    forall j | 0 <= j < |p| ensures !StartsWith((p + rest)[j..], d) {
      assert (p + rest)[j..][0] == p[j];
    }
    forall j | 0 <= j < |p| ensures !StartsWith(p[j..], d) {
      assert p[j..][0] == p[j];
    }
  }

  /** A text with no occurrence of the delimiter is left unchanged. */
  lemma {:induction false} RewriteIdentity(s: string, rule: Rule)
    requires |rule.delim| > 0
    requires NoDelimIn(s, rule.delim)
    ensures Rewrite(s, rule) == s
    decreases |s|
  {
    if |s| > 0 {
      assert s[0..] == s;
      assert !StartsWith(s, rule.delim);
      assert NoDelimIn(s[1..], rule.delim) by {
        forall j | 0 <= j < |s[1..]| ensures !StartsWith(s[1..][j..], rule.delim) {
          assert s[1..][j..] == s[j + 1..];
        }
      }
      RewriteIdentity(s[1..], rule);
    }
  }

  /** A prefix with no occurrence of the delimiter's first character passes through unchanged. */
  lemma {:induction false} RewritePlainPrefix(p: string, rest: string, rule: Rule)
    requires |rule.delim| > 0
    requires Lacks(p, rule.delim[0])
    ensures Rewrite(p + rest, rule) == p + Rewrite(rest, rule)
    decreases |p|
  {
    if |p| > 0 {
      var s := p + rest;
      assert s[0] == p[0];
      assert !StartsWith(s, rule.delim);
      assert s[1..] == p[1..] + rest;
      assert Rewrite(s, rule) == [p[0]] + Rewrite(p[1..] + rest, rule);
      RewritePlainPrefix(p[1..], rest, rule);
      assert p == [p[0]] + p[1..];
    } else {
      assert p + rest == rest;
    }
  }

  /** The lazy scan over a group of allowed characters stops at the first closing delimiter. */
  lemma {:induction false} CloseAtFirst(s: string, rule: Rule, k: nat, e: nat)
    requires k <= e <= |s|
    requires StartsWith(s[e..], rule.delim)
    requires forall j | k <= j < e :: !StartsWith(s[j..], rule.delim) && Allowed(rule, s[j])
    ensures CloseAt(s, rule, k) == Some(e)
    decreases e - k
  {
    if k < e {
      CloseAtFirst(s, rule, k + 1, e);
    }
  }

  /** Unfolding the rewrite at a position where a match starts, with group `g` and remainder `t`. */
  lemma RewriteAtMatch(s: string, rule: Rule, k: nat, g: string, t: string)
    requires |rule.delim| > 0 && |s| > 0 && StartsWith(s, rule.delim)
    requires CloseAt(s, rule, |rule.delim|) == Some(k)
    requires k + |rule.delim| <= |s| && s[|rule.delim|..k] == g && s[k + |rule.delim|..] == t
    ensures Rewrite(s, rule) == rule.open + g + rule.close + Rewrite(t, rule)
  {
    var d := rule.delim;
    assert StartsWith(s, d) && CloseAt(s, rule, |d|).Some? && CloseAt(s, rule, |d|).value == k;
    var tail := Rewrite(s[k + |d|..], rule);
    assert tail == Rewrite(t, rule);
    assert Rewrite(s, rule) == rule.open + s[|d|..k] + rule.close + tail;
  }

  /** Whether `d` starts a text depends only on the first `|d|` characters. */
  lemma StartsWithLonger(a: string, b: string, d: string)
    requires |d| <= |a|
    ensures StartsWith(a + b, d) <==> StartsWith(a, d)
  {
    assert (a + b)[..|d|] == a[..|d|];
  }

  /** Inside `d + x + d + rest`, the group `x` is scanned as in `x + d`. */
  lemma ScanGroup(x: string, rest: string, rule: Rule)
    requires |rule.delim| > 0
    requires forall i | 0 <= i < |x| :: Allowed(rule, x[i])
    requires forall j | 0 <= j < |x| :: !StartsWith((x + rule.delim)[j..], rule.delim)
    ensures CloseAt(rule.delim + x + rule.delim + rest, rule, |rule.delim|) == Some(|rule.delim| + |x|)
  {
    var d := rule.delim;
    var s := d + x + d + rest;
    var e := |d| + |x|;
    assert s[e..] == d + rest;
    forall j | |d| <= j < e ensures !StartsWith(s[j..], d) && Allowed(rule, s[j]) {
      var j' := j - |d|;
      assert s[j] == x[j'];
      assert s[j..] == (x + d)[j'..] + rest;
      StartsWithLonger((x + d)[j'..], rest, d);
    }
    CloseAtFirst(s, rule, |d|, e);
  }

  /**
   * One match: the delimiter, a group of allowed characters holding no
   * delimiter of its own, the delimiter again. It is replaced and the
   * rewrite carries on behind it.
   */
  lemma RewriteMatch(x: string, rest: string, rule: Rule)
    requires |rule.delim| > 0
    requires forall i | 0 <= i < |x| :: Allowed(rule, x[i])
    requires forall j | 0 <= j < |x| :: !StartsWith((x + rule.delim)[j..], rule.delim)
    ensures Rewrite(rule.delim + x + rule.delim + rest, rule) == rule.open + x + rule.close + Rewrite(rest, rule)
  {
    var d := rule.delim;
    MatchSlices(d, x, rest);
    ScanGroup(x, rest, rule);
    RewriteAtMatch(d + x + d + rest, rule, |d| + |x|, x, rest);
  }

  lemma MatchSlices(d: string, x: string, rest: string)
    ensures StartsWith(d + x + d + rest, d)
    ensures (d + x + d + rest)[|d|..|d| + |x|] == x
    ensures (d + x + d + rest)[|d| + |x| + |d|..] == rest
  {
    var s := d + x + d + rest;
    assert s[..|d|] == d;
  }

  /** Text the bold group matches as a whole: no asterisk and no line break. */
  predicate BoldPlain(x: string) {
    Lacks(x, '*') && forall i | 0 <= i < |x| :: !IsLineTerminator(x[i])
  }

  /** Plain text for the two rules: bold-plain and without a backtick. */
  predicate Plain(x: string) {
    BoldPlain(x) && Lacks(x, '`')
  }

  /** The bold pass turns `**x**` around bold-plain text into a strong element. */
  lemma BoldPass(x: string)
    requires BoldPlain(x)
    ensures Rewrite("**" + x + "**", BoldRule) == "<strong>" + x + "</strong>"
  {
    var d := BoldRule.delim;
    NoFirstCharNoDelim(x, d, d);
    RewriteMatch(x, "", BoldRule);
    assert d + x + d + "" == "**" + x + "**";
  }

  /** Text without a backtick is left alone by the code pass. */
  lemma CodePassIdentity(html: string)
    requires Lacks(html, '`')
    ensures Rewrite(html, CodeRule) == html
  {
    NoFirstCharNoDelim(html, "", CodeRule.delim);
    RewriteIdentity(html, CodeRule);
  }

  lemma StrongLacksBacktick(x: string)
    requires Plain(x)
    ensures Lacks("<strong>" + x + "</strong>", '`')
  {
    assert Lacks("<strong>", '`') && Lacks("</strong>", '`');
    LacksConcat("<strong>", x, '`');
    LacksConcat("<strong>" + x, "</strong>", '`');
  }

  /** The two passes over `**x**`, stated for a content variable to keep the proof small. */
  lemma RenderBold(x: string, content: string)
    requires Plain(x) && content == "**" + x + "**"
    ensures RenderText(content) == "<p>" + ("<strong>" + x + "</strong>") + "</p>"
  {
    var html := "<strong>" + x + "</strong>";
    BoldPass(x);
    StrongLacksBacktick(x);
    CodePassIdentity(html);
    RenderTextSteps(content, html, html);
  }

  lemma ParagraphAssociates(a: string, h: string, b: string)
    ensures "<p>" + (a + h + b) + "</p>" == "<p>" + a + h + b + "</p>"
  {
  }

  /** `**x**` around plain text renders as a strong element inside the paragraph. */
  lemma BoldText(x: string)
    requires Plain(x)
    ensures RenderText("**" + x + "**") == "<p>" + "<strong>" + x + "</strong>" + "</p>"
  {
    RenderBold(x, "**" + x + "**");
    ParagraphAssociates("", "<strong>" + x + "</strong>", "");
  }

  /** `**x**` around bold-plain text, then anything: a strong element, then the rewrite of the rest. */
  lemma BoldMatch(x: string, rest: string)
    requires BoldPlain(x)
    ensures Rewrite(BoldRule.delim + x + BoldRule.delim + rest, BoldRule) ==
      "<strong>" + x + "</strong>" + Rewrite(rest, BoldRule)
  {
    NoFirstCharNoDelim(x, BoldRule.delim, BoldRule.delim);
    RewriteMatch(x, rest, BoldRule);
  }

  /** Bold after a prefix without asterisks, stated over the rule's own delimiter. */
  lemma BoldAfterPlainStep(p: string, x: string, rest: string)
    requires Lacks(p, '*') && BoldPlain(x)
    ensures Rewrite(p + (BoldRule.delim + x + BoldRule.delim + rest), BoldRule) ==
      p + ("<strong>" + x + "</strong>" + Rewrite(rest, BoldRule))
  {
    RewritePlainPrefix(p, BoldRule.delim + x + BoldRule.delim + rest, BoldRule);
    BoldMatch(x, rest);
  }

  /** Bold after a prefix without asterisks: the prefix is kept and `**x**` becomes a strong element. */
  lemma BoldAfterPlain(p: string, x: string, rest: string)
    requires Lacks(p, '*') && BoldPlain(x)
    ensures Rewrite(p + "**" + x + "**" + rest, BoldRule) ==
      p + "<strong>" + x + "</strong>" + Rewrite(rest, BoldRule)
  {
    BoldAfterPlainStep(p, x, rest);
    BoldAssociates(p, x, rest, Rewrite(rest, BoldRule));
  }

  lemma BoldAssociates(p: string, x: string, rest: string, rest': string)
    ensures p + "**" + x + "**" + rest == p + (BoldRule.delim + x + BoldRule.delim + rest)
    ensures p + "<strong>" + x + "</strong>" + rest' == p + ("<strong>" + x + "</strong>" + rest')
  {
  }

  /** A code block around HTML without backticks becomes the pre/code element. */
  lemma CodeBlock(h: string)
    requires Lacks(h, '`')
    ensures Rewrite("```" + h + "```", CodeRule) == CodeOpen + h + CodeClose
  {
    var fence := CodeRule.delim;
    NoFirstCharNoDelim(h, fence, fence);
    RewriteMatch(h, "", CodeRule);
    assert fence + h + fence + "" == "```" + h + "```";
  }

  /** Text without an asterisk is left alone by the bold pass. */
  lemma BoldPassIdentity(h: string)
    requires Lacks(h, '*')
    ensures Rewrite(h, BoldRule) == h
  {
    NoFirstCharNoDelim(h, "", BoldRule.delim);
    RewriteIdentity(h, BoldRule);
  }

  /** RenderText is the bold pass, then the code pass, then the paragraph. */
  lemma RenderTextSteps(content: string, bolded: string, coded: string)
    requires Rewrite(content, BoldRule) == bolded
    requires Rewrite(bolded, CodeRule) == coded
    ensures RenderText(content) == "<p>" + coded + "</p>"
  {
  }

  /** The two passes over a fenced `**x**`, stated for a content variable to keep the proof small. */
  lemma RenderBoldInCode(x: string, content: string)
    requires Plain(x) && content == "```" + "**" + x + "**" + "```"
    ensures RenderText(content) == "<p>" + (CodeOpen + ("<strong>" + x + "</strong>") + CodeClose) + "</p>"
  {
    var strong := "<strong>" + x + "</strong>";
    assert Lacks("```", '*');
    BoldAfterPlainStep("```", x, "```");
    BoldPassIdentity("```");
    BoldAssociates("```", x, "```", "```");
    StrongLacksBacktick(x);
    CodeBlock(strong);
    RenderTextSteps(content, "```" + strong + "```", CodeOpen + strong + CodeClose);
  }

  /**
   * Bold is rewritten first, so a `**x**` inside a code block comes out as
   * a strong element inside the code element.
   */
  lemma BoldInsideCode(x: string)
    requires Plain(x)
    ensures RenderText("```" + "**" + x + "**" + "```") ==
      "<p>" + CodeOpen + "<strong>" + x + "</strong>" + CodeClose + "</p>"
  {
    RenderBoldInCode(x, "```" + "**" + x + "**" + "```");
    ParagraphAssociates(CodeOpen, "<strong>" + x + "</strong>", CodeClose);
  }

  /** The lazy `.` group cannot cross a line terminator: the scan fails at the first one. */
  lemma {:induction false} CloseAtStopsAtLineBreak(s: string, k: nat, e: nat)
    requires k <= e < |s| && IsLineTerminator(s[e])
    requires forall j | k <= j <= e :: !StartsWith(s[j..], BoldRule.delim)
    ensures CloseAt(s, BoldRule, k) == None
    decreases e - k
  {
    if k < e {
      if Allowed(BoldRule, s[k]) {
        CloseAtStopsAtLineBreak(s, k + 1, e);
      }
    }
  }

  /**
   * A line terminator `c` inside a would-be bold `**a c b**` (with `a` bold-plain
   * and `b` free of asterisks) stops the match: the text is left as it was.
   */
  lemma LineBreakStopsBold(a: string, c: char, b: string)
    requires BoldPlain(a) && Lacks(b, '*') && IsLineTerminator(c)
    ensures Rewrite(BoldRule.delim + (a + [c] + b) + BoldRule.delim, BoldRule) ==
      BoldRule.delim + (a + [c] + b) + BoldRule.delim
  {
    var d := BoldRule.delim;
    var body := a + [c] + b;
    var s := d + body + d;
    assert Lacks(body, '*') by {
      LacksConcat(a, [c], '*');
      LacksConcat(a + [c], b, '*');
    }
    // At position 0 the lazy group reaches the line break before any closing delimiter.
    assert s[2 + |a|] == c;
    forall j | 2 <= j <= 2 + |a| ensures !StartsWith(s[j..], d) {
      assert s[j..][0] == body[j - 2];
    }
    CloseAtStopsAtLineBreak(s, 2, 2 + |a|);
    assert Rewrite(s, BoldRule) == [s[0]] + Rewrite(s[1..], BoldRule);
    // At position 1 a single asterisk is kept.
    var t := s[1..];
    assert t[1..] == body + d;
    assert t[1] == body[0];
    assert Rewrite(t, BoldRule) == [t[0]] + Rewrite(body + d, BoldRule);
    // The body passes through, then so does the lone closing delimiter.
    RewritePlainPrefix(body, d, BoldRule);
    ClosingDelimAlone();
    assert s == [s[0]] + ([t[0]] + (body + d));
  }

  /** A lone `**` has nothing after it to match. */
  lemma ClosingDelimAlone()
    ensures Rewrite(BoldRule.delim, BoldRule) == BoldRule.delim
  {
    var d := BoldRule.delim;
    assert StartsWith(d, d);
    assert CloseAt(d, BoldRule, 2) == None;
    assert d[1..] == "*";
    assert Rewrite("*", BoldRule) == "*";
  }

  /**
   * The group is lazy: in `**a**b**` the first closing `**` ends the strong
   * element and the last one is left as text.
   */
  lemma LazyBoldClosesFirst(a: string, b: string)
    requires BoldPlain(a) && BoldPlain(b)
    ensures Rewrite(BoldRule.delim + a + BoldRule.delim + (b + BoldRule.delim), BoldRule) ==
      "<strong>" + a + "</strong>" + (b + BoldRule.delim)
  {
    BoldMatch(a, b + BoldRule.delim);
    RewritePlainPrefix(b, BoldRule.delim, BoldRule);
    ClosingDelimAlone();
  }

  /** Text with neither an asterisk nor a backtick is only wrapped in a paragraph. */
  lemma UnmarkedTextIsParagraph(content: string)
    requires Lacks(content, '*') && Lacks(content, '`')
    ensures RenderText(content) == "<p>" + content + "</p>"
  {
    BoldPassIdentity(content);
    CodePassIdentity(content);
    RenderTextSteps(content, content, content);
  }
}
