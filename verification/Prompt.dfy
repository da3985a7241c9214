// What is typed at an agent, and the same text found again in what the agent
// says it was given.
module Prompts {
  import opened Basics

  // What marks a pasted text in a prompt: the lead typed after it, and the
  // tags of the agent's wrapper up to their attributes.
  datatype Marks = Marks(lead: string, open: string, close: string)

  const MARKS := Marks(" Act on the message above" + " as this turn's request.", "<" + "pasted_content",
    "<" + "/pasted_content")

  predicate ModeChar(c: char) {
    c in {'!', '#', '&'}
  }

  // `char::is_control`: Unicode's category Cc.
  predicate IsControl(c: char) {
    var n := c as int;
    n < 0x20 || 0x7F <= n < 0xA0
  }

  // Invisible characters of category Cf.
  predicate IsFormat(c: char) {
    var n := c as int;
    || n == 0xAD || 0x600 <= n <= 0x605 || n == 0x61C || n == 0x6DD || n == 0x70F || 0x890 <= n <= 0x891
    || n == 0x8E2 || n == 0x180E || 0x200B <= n <= 0x200F || 0x202A <= n <= 0x202E || 0x2060 <= n <= 0x2064
    || 0x2066 <= n <= 0x206F || n == 0xFEFF || 0xFFF9 <= n <= 0xFFFB || n == 0x110BD || n == 0x110CD
    || 0x13430 <= n <= 0x1343F || 0x1BCA0 <= n <= 0x1BCA3 || 0x1D173 <= n <= 0x1D17A || n == 0xE0001
    || 0xE0020 <= n <= 0xE007F
  }

  // Invisible characters of other categories.
  predicate IsIgnorable(c: char) {
    var n := c as int;
    || n == 0x34F || 0x115F <= n <= 0x1160 || 0x17B4 <= n <= 0x17B5 || 0x180B <= n <= 0x180D || n == 0x180F
    || 0x200B <= n <= 0x200F || 0x202A <= n <= 0x202E || 0x2060 <= n <= 0x206F || n == 0x3164
    || 0xFE00 <= n <= 0xFE0F || n == 0xFEFF || n == 0xFFA0 || 0xFFF0 <= n <= 0xFFF8 || n == 0x1107F
    || n == 0x16FE4 || n == 0xE0000 || 0xE0002 <= n <= 0xE001F || 0xE0080 <= n <= 0xE0FFF
  }

  predicate IsBlank(c: char) {
    IsWhitespace(c) || IsControl(c) || IsFormat(c) || IsIgnorable(c)
  }

  function TrimStartBy(p: char -> bool, s: string): string {
    if s != "" && p(s[0]) then TrimStartBy(p, s[1..]) else s
  }

  function TrimStart(s: string): string {
    TrimStartBy(IsWhitespace, s)
  }

  function TrimEnd(s: string): string {
    if s != "" && IsWhitespace(s[|s| - 1]) then TrimEnd(s[..|s| - 1]) else s
  }

  function Trim(s: string): string {
    TrimStart(TrimEnd(s))
  }

  // --- What is typed -------------------------------------------------------------

  predicate Kept(c: char) {
    !IsControl(c) || c == '\n' || c == '\t'
  }

  function StripTerminalControls(s: string): string {
    if s == "" then "" else (if Kept(s[0]) then [s[0]] else "") + StripTerminalControls(s[1..])
  }

  predicate Clean(s: string) {
    forall i :: 0 <= i < |s| ==> Kept(s[i])
  }

  lemma {:induction false} StrippedIsClean(s: string)
    ensures Clean(StripTerminalControls(s))
    ensures StripTerminalControls(s) == s <==> Clean(s)
    ensures |StripTerminalControls(s)| <= |s|
  {
    if s != "" {
      StrippedIsClean(s[1..]);
      assert s == [s[0]] + s[1..];
      if Kept(s[0]) {
        assert Clean(s) <==> Clean(s[1..]) by {
          if Clean(s[1..]) {
            forall i | 0 <= i < |s| ensures Kept(s[i]) {
              assert i > 0 ==> s[i] == s[1..][i - 1];
            }
          }
        }
      }
    }
  }

  // Stripping goes character by character: what is stripped of two texts is
  // what is stripped of each, and of one character it is the character itself
  // unless that is a control other than a newline or a tab.
  lemma {:induction false} StrippingKeepsTheRest(a: string, b: string, c: char)
    ensures StripTerminalControls(a + b) == StripTerminalControls(a) + StripTerminalControls(b)
    ensures StripTerminalControls([c]) ==
      if ((c as int) < 0x20 || 0x7F <= (c as int) < 0xA0) && c != '\n' && c != '\t' then "" else [c]
  {
    assert [c][1..] == "";
    if a == "" {
      assert a + b == b;
    } else {
      StrippingKeepsTheRest(a[1..], b, c);
      assert (a + b)[1..] == a[1..] + b;
      Assoc(if Kept(a[0]) then [a[0]] else "", StripTerminalControls(a[1..]), StripTerminalControls(b));
    }
  }

  function PromptText(text: string): string {
    var body := TrimStartBy(IsBlank, StripTerminalControls(text));
    if body != "" && ModeChar(body[0]) then "\\" + body else body
  }

  lemma {:induction false} TrimStartCuts(p: char -> bool, s: string)
    ensures var t := TrimStartBy(p, s);
      && |t| <= |s| && t == s[|s| - |t|..]
      && (forall i :: 0 <= i < |s| - |t| ==> p(s[i]))
      && (t == "" || !p(t[0]))
  {
    if s != "" && p(s[0]) {
      TrimStartCuts(p, s[1..]);
    }
  }

  // Prose: it opens with a visible character that switches no input mode, and
  // no terminal control is left in it.
  predicate Prose(s: string) {
    Clean(s) && (s == "" || (!IsBlank(s[0]) && !ModeChar(s[0])))
  }

  lemma EscapeIsProse()
    ensures Kept('\\') && !IsBlank('\\') && !ModeChar('\\')
  {
  }

  // What is typed is prose, and prose is typed as it is.
  lemma PromptTextIsProse(text: string)
    ensures Prose(PromptText(text))
    ensures PromptText(text) == text <==> Prose(text)
  {
    StrippedIsClean(text);
    EscapeIsProse();
    var stripped := StripTerminalControls(text);
    TrimStartCuts(IsBlank, stripped);
    if Prose(text) {
      assert TrimStartBy(IsBlank, stripped) == text;
    }
  }

  predicate Blanks(s: string) {
    forall i :: 0 <= i < |s| ==> IsBlank(s[i])
  }

  // `r` is `s` less `n` leading blanks, perhaps escaped.
  predicate LessBlanks(s: string, r: string, n: nat) {
    n <= |s| && Blanks(s[..n]) && (r == s[n..] || r == "\\" + s[n..])
  }

  // Only controls, leading blanks and the one escape tell it from the text.
  lemma PromptTextSaysTheText(text: string)
    ensures exists n :: LessBlanks(StripTerminalControls(text), PromptText(text), n)
  {
    var stripped := StripTerminalControls(text);
    TrimStartCuts(IsBlank, stripped);
    var body := TrimStartBy(IsBlank, stripped);
    assert LessBlanks(stripped, PromptText(text), |stripped| - |body|);
  }

  lemma PromptTextIsIdempotent(text: string)
    ensures PromptText(PromptText(text)) == PromptText(text)
  {
    PromptTextIsProse(text);
    PromptTextIsProse(PromptText(text));
  }

  // --- What was sent -------------------------------------------------------------

  function StripPasteLead(m: Marks, prompt: string): Option<string> {
    match StripSuffix(TrimEnd(prompt), TrimStart(m.lead))
    case Some(body) => Some(Trim(body))
    case None => None
  }

  function UnwrapPasted(m: Marks, text: string): Option<string> {
    match StripPrefix(Trim(text), m.open)
    case None => None
    case Some(rest) =>
      match SplitOnce(rest, '>')
      case None => None
      case Some((attrs, inner)) =>
        if '<' in attrs then None
        else match StripSuffix(inner, m.close + attrs + ">")
          case Some(body) => Some(body)
          case None => StripSuffix(inner, m.close + ">")
  }

  function ToSeq<T>(o: Option<T>): seq<T> {
    if o.Some? then [o.value] else []
  }

  // `Vec::dedup`: repeats of the element before them go.
  function Dedup(s: seq<string>): seq<string> {
    if |s| <= 1 then s
    else if s[0] == s[1] then Dedup(s[1..])
    else [s[0]] + Dedup(s[1..])
  }

  function SubmittedCandidates(m: Marks, prompt: string): seq<string> {
    var unled := StripPasteLead(m, prompt);
    Dedup([prompt] + ToSeq(unled) + ToSeq(UnwrapPasted(m, if unled.Some? then unled.value else prompt)))
  }

  function SubmittedText(m: Marks, prompt: string): string {
    var all := SubmittedCandidates(m, prompt);
    if all == [] then prompt else all[|all| - 1]
  }

  predicate Spaces(s: string) {
    forall i :: 0 <= i < |s| ==> IsWhitespace(s[i])
  }

  // Neither end is white space.
  predicate Trimmed(s: string) {
    s == "" || (!IsWhitespace(s[0]) && !IsWhitespace(s[|s| - 1]))
  }

  lemma {:induction false} TrimEndDrops(x: string, after: string)
    requires Spaces(after)
    ensures TrimEnd(x + after) == TrimEnd(x)
    decreases |after|
  {
    if after == "" {
      assert x + after == x;
    } else {
      var n := |after| - 1;
      assert (x + after)[..|x + after| - 1] == x + after[..n];
      TrimEndDrops(x, after[..n]);
    }
  }

  lemma {:induction false} TrimStartDrops(before: string, x: string)
    requires Spaces(before)
    ensures TrimStart(before + x) == TrimStart(x)
    decreases |before|
  {
    if before == "" {
      assert before + x == x;
    } else {
      assert (before + x)[1..] == before[1..] + x;
      TrimStartDrops(before[1..], x);
    }
  }

  lemma TrimFinds(before: string, x: string, after: string)
    requires Spaces(before) && Spaces(after) && Trimmed(x) && x != ""
    ensures Trim(before + x + after) == x
  {
    TrimEndDrops(before + x, after);
    assert (before + x)[|before + x| - 1] == x[|x| - 1];
    TrimStartDrops(before, x);
  }

  lemma {:induction false} TrimEndShortens(s: string)
    ensures |TrimEnd(s)| <= |s|
  {
    if s != "" && IsWhitespace(s[|s| - 1]) {
      TrimEndShortens(s[..|s| - 1]);
    }
  }

  lemma TrimShortens(s: string)
    ensures |Trim(s)| <= |s|
  {
    TrimEndShortens(s);
    TrimStartCuts(IsWhitespace, TrimEnd(s));
  }

  // What the proofs use of the marks: the lead is a space and then a text
  // that neither opens nor ends in white space nor ends like a tag; the
  // tags open with `<` and hold no other.
  predicate Proper(m: Marks) {
    && |m.lead| >= 2 && m.lead[0] == ' ' && !IsWhitespace(m.lead[1])
    && !IsWhitespace(m.lead[|m.lead| - 1]) && m.lead[|m.lead| - 1] != '>'
    && m.open != "" && m.open[0] == '<'
    && m.close != "" && m.close[0] == '<' && '<' !in m.close[1..]
  }

  lemma TheTagsAreProper()
    ensures MARKS.open[0] == '<' && MARKS.close[0] == '<' && '<' !in MARKS.close[1..]
  {
    var inside := "/pasted_content";
    assert '<' !in inside;
    assert MARKS.close == "<" + inside && MARKS.close[1..] == inside;
  }

  lemma TheLeadIsProper()
    ensures |MARKS.lead| == 49 && MARKS.lead[0] == ' ' && MARKS.lead[1] == 'A' && MARKS.lead[48] == '.'
  {
  }

  lemma TheMarksAreProper()
    ensures Proper(MARKS)
  {
    TheTagsAreProper();
    TheLeadIsProper();
  }

  lemma TheLead(m: Marks)
    requires Proper(m)
    ensures var lead := TrimStart(m.lead);
      lead == m.lead[1..] && lead != "" && Trimmed(lead) && m.lead == " " + lead
  {
    assert m.lead[1..][0] == m.lead[1];
    assert TrimStart(m.lead[1..]) == m.lead[1..];
    assert m.lead == " " + m.lead[1..];
  }

  // A text with the lead after it, and any white space after that: the text is
  // found, trimmed. Only such a prompt is one with a lead.
  lemma StripFindsTheText(m: Marks, text: string, after: string)
    requires Proper(m)
    requires Spaces(after)
    ensures StripPasteLead(m, text + m.lead + after) == Some(Trim(text))
  {
    TheLead(m);
    var lead := TrimStart(m.lead);
    TrimEndDrops(text + m.lead, after);
    assert text + m.lead == (text + " ") + lead;
    var led := (text + " ") + lead;
    assert led[|led| - 1] == lead[|lead| - 1];
    assert led[|led| - |lead|..] == lead;
    assert led[..|led| - |lead|] == text + " ";
    TrimEndDrops(text, " ");
  }

  // The wrapper around a body: the closing tag repeats the attributes or has
  // none.
  function Wrapper(m: Marks, attrs: string, body: string, closing: string): string {
    m.open + attrs + ">" + body + m.close + closing + ">"
  }

  predicate WrapperOf(attrs: string, closing: string) {
    '<' !in attrs && '>' !in attrs && (closing == attrs || closing == "")
  }

  lemma SuffixStripped(a: string, b: string)
    ensures StripSuffix(a + b, b) == Some(a)
  {
    assert (a + b)[|a|..] == b;
    assert (a + b)[..|a|] == a;
  }

  // Ending in the bare closing tag is not ending in one with attributes.
  lemma BareIsNotAttributed(m: Marks, inner: string, attrs: string)
    requires Proper(m)
    requires '<' !in attrs && attrs != ""
    requires EndsWith(inner, m.close + ">")
    ensures !EndsWith(inner, m.close + attrs + ">")
  {
    var bare, full := m.close + ">", m.close + attrs + ">";
    if EndsWith(inner, full) {
      var end := inner[|inner| - |full|..];
      assert end == full;
      assert inner[|inner| - |bare|..] == bare;
      assert end[|attrs|] == inner[|inner| - |bare|] == bare[0] == '<';
      NoOtherAngle(m, attrs, |attrs|);
    }
  }

  lemma NoOtherAngle(m: Marks, attrs: string, i: nat)
    requires Proper(m)
    requires '<' !in attrs && 0 < i <= |m.close| + |attrs|
    ensures (m.close + attrs + ">")[i] != '<'
  {
    if i < |m.close| {
      assert m.close[i] == m.close[1..][i - 1];
    } else if i < |m.close| + |attrs| {
      assert (m.close + attrs + ">")[i] == attrs[i - |m.close|];
    }
  }

  // Unwrapping finds the body of any wrapper, exactly; and what it finds is
  // the body of one.
  lemma UnwrapFindsTheBody(m: Marks, attrs: string, body: string, closing: string, before: string, after: string)
    requires Proper(m)
    requires WrapperOf(attrs, closing) && Spaces(before) && Spaces(after)
    ensures UnwrapPasted(m, before + Wrapper(m, attrs, body, closing) + after) == Some(body)
  {
    var w := Wrapper(m, attrs, body, closing);
    assert w[0] == '<' && w[|w| - 1] == '>';
    TrimFinds(before, w, after);
    var inner := body + (m.close + closing + ">");
    assert w == m.open + (attrs + ">" + inner);
    assert w[|m.open|..] == attrs + ">" + inner;
    SplitOnceAt(attrs, '>', inner);
    SuffixStripped(body, m.close + closing + ">");
    if closing != attrs {
      assert m.close + "" + ">" == m.close + ">";
      BareIsNotAttributed(m, inner, attrs);
    }
  }

  lemma SuffixOf(s: string, x: string)
    requires StripSuffix(s, x).Some?
    ensures s == StripSuffix(s, x).value + x
  {
  }

  // What closes the tag whose inside `UnwrapPasted` finds.
  function Closing(m: Marks, inner: string, attrs: string): string {
    if EndsWith(inner, m.close + attrs + ">") then attrs else ""
  }

  lemma ClosingEnds(m: Marks, inner: string, attrs: string, body: string)
    requires StripSuffix(inner, m.close + attrs + ">") == Some(body)
      || (StripSuffix(inner, m.close + attrs + ">") == None && StripSuffix(inner, m.close + ">") == Some(body))
    ensures inner == body + m.close + Closing(m, inner, attrs) + ">"
  {
    if EndsWith(inner, m.close + attrs + ">") {
      SuffixOf(inner, m.close + attrs + ">");
      assert inner == body + m.close + attrs + ">";
    } else {
      SuffixOf(inner, m.close + ">");
      assert inner == body + m.close + "" + ">";
    }
  }

  ghost predicate IsWrapperOf(m: Marks, text: string, body: string) {
    exists attrs, closing :: WrapperOf(attrs, closing) && text == Wrapper(m, attrs, body, closing)
  }

  lemma UnwrapFindsOnlyBodies(m: Marks, text: string)
    requires Proper(m)
    requires UnwrapPasted(m, text).Some?
    ensures IsWrapperOf(m, Trim(text), UnwrapPasted(m, text).value)
    ensures |UnwrapPasted(m, text).value| < |text|
  {
    var t, body := Trim(text), UnwrapPasted(m, text).value;
    var rest := t[|m.open|..];
    SplitOnceCuts(rest, '>');
    var (attrs, inner) := SplitOnce(rest, '>').value;
    ClosingEnds(m, inner, attrs, body);
    var closing := Closing(m, inner, attrs);
    Rewrapped(m, t, attrs, body, closing);
    assert WrapperOf(attrs, closing);
    TrimShortens(text);
  }

  lemma Rewrapped(m: Marks, t: string, attrs: string, body: string, closing: string)
    requires m.open <= t && t[|m.open|..] == attrs + ['>'] + (body + m.close + closing + ">")
    ensures t == Wrapper(m, attrs, body, closing) && |body| < |t|
  {
    assert t == m.open + t[|m.open|..];
  }

  // --- The candidates -----------------------------------------------------------

  predicate Shrinking(s: seq<string>) {
    forall i, j :: 0 <= i < j < |s| ==> |s[j]| < |s[i]|
  }

  lemma {:induction false} DedupOfShrinking(s: seq<string>)
    requires Shrinking(s)
    ensures Dedup(s) == s
  {
    if |s| > 1 {
      assert |s[1]| < |s[0]|;
      forall i, j | 0 <= i < j < |s[1..]| ensures |s[1..][j]| < |s[1..][i]| {
        assert |s[j + 1]| < |s[i + 1]|;
      }
      DedupOfShrinking(s[1..]);
    }
  }

  lemma StripShortens(m: Marks, prompt: string)
    requires Proper(m)
    requires StripPasteLead(m, prompt).Some?
    ensures |StripPasteLead(m, prompt).value| < |prompt|
  {
    TheLead(m);
    TrimEndShortens(prompt);
    TrimShortens(StripSuffix(TrimEnd(prompt), TrimStart(m.lead)).value);
  }

  // The candidates get strictly shorter, so none repeats another and dropping
  // repeats drops nothing; the first is the prompt, the last the most
  // stripped.
  lemma CandidatesShrink(m: Marks, prompt: string)
    requires Proper(m)
    ensures var unled := StripPasteLead(m, prompt);
      && SubmittedCandidates(m, prompt)
        == [prompt] + ToSeq(unled) + ToSeq(UnwrapPasted(m, if unled.Some? then unled.value else prompt))
      && Shrinking(SubmittedCandidates(m, prompt))
  {
    var unled := StripPasteLead(m, prompt);
    var text := if unled.Some? then unled.value else prompt;
    var all := [prompt] + ToSeq(unled) + ToSeq(UnwrapPasted(m, text));
    if unled.Some? {
      StripShortens(m, prompt);
    }
    if UnwrapPasted(m, text).Some? {
      UnwrapFindsOnlyBodies(m, text);
    }
    assert Shrinking(all);
    DedupOfShrinking(all);
  }

  // A text that was pasted and given the lead is found among the candidates of
  // what comes back when the agent joins the two.
  lemma TheJoinedTextIsFound(m: Marks, text: string, after: string)
    requires Proper(m)
    requires Spaces(after)
    ensures var all := SubmittedCandidates(m, text + m.lead + after);
      |all| >= 2 && all[1] == Trim(text)
  {
    CandidatesShrink(m, text + m.lead + after);
    StripFindsTheText(m, text, after);
  }

  // And when the agent wraps the text, whatever the attributes and the blanks
  // around the wrapper: the last candidate is the wrapper's inside, exactly.
  lemma TheWrappedTextIsFound(m: Marks, attrs: string, body: string, closing: string, before: string, between: string,
                              after: string)
    requires Proper(m)
    requires WrapperOf(attrs, closing) && Spaces(before) && Spaces(between) && Spaces(after)
    ensures SubmittedText(m, before + Wrapper(m, attrs, body, closing) + between + m.lead + after) == body
    ensures SubmittedText(m, before + Wrapper(m, attrs, body, closing) + after) == body
  {
    var w := Wrapper(m, attrs, body, closing);
    assert w[0] == '<' && w[|w| - 1] == '>';
    var led := before + w + between + m.lead + after;
    StripFindsTheText(m, before + w + between, after);
    TrimFinds(before, w, between);
    UnwrapFindsTheBody(m, attrs, body, closing, "", "");
    assert "" + w + "" == w;
    CandidatesShrink(m, led);
    var plain := before + w + after;
    UnwrapFindsTheBody(m, attrs, body, closing, before, after);
    WrapperHasNoLead(m, before, w, after);
    CandidatesShrink(m, plain);
  }

  lemma WrapperHasNoLead(m: Marks, before: string, w: string, after: string)
    requires Proper(m)
    requires w != "" && w[|w| - 1] == '>' && Spaces(after)
    ensures StripPasteLead(m, before + w + after) == None
  {
    TrimEndDrops(before + w, after);
    assert (before + w)[|before + w| - 1] == '>';
    TheLead(m);
    var lead := TrimStart(m.lead);
    assert lead[|lead| - 1] == m.lead[|m.lead| - 1];
    assert TrimEnd(before + w) == before + w;
  }

  lemma Bare(w: string, after: string, lead: string)
    ensures "" + w + after + lead + "" == w + after + lead
  {
  }

  lemma TheWrapperIsFound(m: Marks, attrs: string, body: string, closing: string, after: string)
    requires Proper(m)
    requires WrapperOf(attrs, closing) && Spaces(after)
    ensures SubmittedText(m, Wrapper(m, attrs, body, closing) + after + m.lead) == body
  {
    TheWrappedTextIsFound(m, attrs, body, closing, "", after, "");
    Bare(Wrapper(m, attrs, body, closing), after, m.lead);
  }

  // Reading a prompt back: the text a caller sent comes back, up to white
  // space at its ends, from an agent that wraps it with padding of its own.
  lemma TheWrappedTextComesBack(m: Marks, text: string, attrs: string, closing: string, above: string, below: string,
                                after: string)
    requires Proper(m)
    requires WrapperOf(attrs, closing) && Spaces(above) && Spaces(below) && Spaces(after)
    ensures Trim(SubmittedText(m, Wrapper(m, attrs, above + text + below, closing) + after + m.lead)) == Trim(text)
  {
    TheWrapperIsFound(m, attrs, above + text + below, closing, after);
    TrimOfPaddedBoth(above, text, below);
  }

  // A text is not one wrapper exactly when it does not unwrap.
  lemma UnwrapsIffAWrapper(m: Marks, text: string)
    requires Proper(m) && Trimmed(text)
    ensures UnwrapPasted(m, text).Some? <==> exists body :: IsWrapperOf(m, text, body)
  {
    TrimOfTrimmed(text);
    if UnwrapPasted(m, text).Some? {
      UnwrapFindsOnlyBodies(m, text);
    }
    if body :| IsWrapperOf(m, text, body) {
      var attrs, closing :| WrapperOf(attrs, closing) && text == Wrapper(m, attrs, body, closing);
      UnwrapFindsTheBody(m, attrs, body, closing, "", "");
      assert "" + text + "" == text;
    }
  }

  lemma TrimOfTrimmed(text: string)
    requires Trimmed(text)
    ensures Trim(text) == text
  {
  }

  lemma {:induction false} TrimEndEnds(s: string)
    ensures TrimEnd(s) <= s && (TrimEnd(s) == "" || !IsWhitespace(TrimEnd(s)[|TrimEnd(s)| - 1]))
  {
    if s != "" && IsWhitespace(s[|s| - 1]) {
      TrimEndEnds(s[..|s| - 1]);
    }
  }

  lemma TrimIsTrimmed(s: string)
    ensures Trimmed(Trim(s))
  {
    TrimEndEnds(s);
    TrimStartCuts(IsWhitespace, TrimEnd(s));
  }

  // From one that joins text and lead it comes back exactly when the text is
  // not itself one wrapper around something.
  lemma TheJoinedTextComesBack(m: Marks, text: string, after: string)
    requires Proper(m) && Spaces(after)
    ensures SubmittedText(m, text + m.lead + after) == Trim(text)
      <==> forall body :: !IsWrapperOf(m, Trim(text), body)
  {
    StripFindsTheText(m, text, after);
    CandidatesShrink(m, text + m.lead + after);
    TrimIsTrimmed(text);
    UnwrapsIffAWrapper(m, Trim(text));
    if UnwrapPasted(m, Trim(text)).Some? {
      UnwrapFindsOnlyBodies(m, Trim(text));
    }
  }

  lemma TrimOfPaddedBoth(above: string, text: string, below: string)
    requires Spaces(above) && Spaces(below)
    ensures Trim(above + text + below) == Trim(text)
  {
    TrimEndDrops(above + text, below);
    TrimOfPadded(above, text);
  }

  lemma {:induction false} TrimOfPadded(pad: string, text: string)
    requires Spaces(pad)
    ensures Trim(pad + text) == Trim(text)
    decreases |text|
  {
    if text != "" && IsWhitespace(text[|text| - 1]) {
      var n := |text| - 1;
      assert (pad + text)[..|pad + text| - 1] == pad + text[..n];
      TrimOfPadded(pad, text[..n]);
    } else if text == "" {
      assert pad + text == "" + pad;
      TrimEndDrops("", pad);
    } else {
      assert (pad + text)[|pad + text| - 1] == text[|text| - 1];
      TrimStartDrops(pad, text);
    }
  }
}
