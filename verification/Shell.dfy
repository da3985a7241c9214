// Single-quoting for `sh`, and a reader of the part of the shell language the
// launch script is written in: tokens (2.3), backslash and line continuation
// (2.2.1), single quotes (2.2.2) and comments of the POSIX Shell Command
// Language. What the reader has no rule for (expansions, operators, globs,
// double quotes, NUL) it refuses, so nothing it accepts is misread.
module Shells {
  import opened Basics

  datatype Mode = Between | Word | Quoted | Escaped(inWord: bool) | Comment

  datatype Reader =
    | Refused
    | Reader(mode: Mode, word: string, words: seq<string>, commands: seq<seq<string>>)

  const START := Reader(Between, "", [], [])

  predicate Special(c: char) {
    c in {'|', '&', ';', '<', '>', '(', ')', '$', '`', '"', '*', '?', '[', '~', '{', '}', '!'}
  }

  // Where an unquoted character starts or continues a word, ends one, or
  // starts a quotation.
  predicate InTheOpen(r: Reader) {
    r.Reader? && (r.mode.Between? || r.mode.Word?)
  }

  function EndWord(r: Reader): (v: Reader)
    requires r.Reader?
    ensures v.Reader?
  {
    if r.mode.Word? then r.(mode := Between, words := r.words + [r.word], word := "") else r
  }

  function EndCommand(r: Reader): Reader
    requires r.Reader?
  {
    if r.words == [] then r.(mode := Between)
    else r.(mode := Between, words := [], commands := r.commands + [r.words])
  }

  function Feed(r: Reader, c: char): Reader {
    if r.Refused? || c == '\0' then Refused
    else match r.mode
      case Quoted => if c == '\'' then r.(mode := Word) else r.(word := r.word + [c])
      case Escaped(inWord) =>
        if c == '\n' then r.(mode := if inWord then Word else Between)
        else r.(mode := Word, word := r.word + [c])
      case Comment => if c == '\n' then EndCommand(r) else r
      case _ => FeedOpen(r, c)
  }

  function FeedOpen(r: Reader, c: char): Reader
    requires InTheOpen(r)
  {
    if c == '\\' then r.(mode := Escaped(r.mode.Word?))
    else if c == '\'' then r.(mode := Quoted)
    else if c == '\n' then EndCommand(EndWord(r))
    else if c == ' ' || c == '\t' then EndWord(r)
    else if c == '#' && r.mode.Between? then r.(mode := Comment)
    else if Special(c) then Refused
    else r.(mode := Word, word := r.word + [c])
  }

  function FeedAll(r: Reader, s: string): Reader
    decreases |s|
  {
    if s == "" then r else FeedAll(Feed(r, s[0]), s[1..])
  }

  // The commands of a script, each as its words; none if a quotation is left
  // open or the script is outside this part of the language.
  function Commands(script: string): Option<seq<seq<string>>> {
    var r := FeedAll(START, script);
    if r.Refused? || r.mode.Quoted? || r.mode.Escaped? then None
    else Some(EndCommand(EndWord(r)).commands)
  }

  // --- Reading piece by piece ---------------------------------------------------

  lemma {:induction false} FeedAppend(r: Reader, a: string, b: string)
    ensures FeedAll(r, a + b) == FeedAll(FeedAll(r, a), b)
    decreases |a|
  {
    if a == "" {
      assert a + b == b;
    } else {
      FeedAppend(Feed(r, a[0]), a[1..], b);
      assert (a + b)[1..] == a[1..] + b;
    }
  }

  lemma {:induction false} RefusedStays(s: string)
    ensures FeedAll(Refused, s) == Refused
  {
    if s != "" {
      RefusedStays(s[1..]);
    }
  }

  lemma {:induction false} CommentReads(r: Reader, s: string)
    requires r.Reader? && r.mode.Comment? && '\n' !in s && '\0' !in s
    ensures FeedAll(r, s) == r
  {
    if s != "" {
      CommentReads(r, s[1..]);
    }
  }

  predicate Plain(c: char) {
    !Special(c) && c !in {'\\', '\'', '\n', ' ', '\t', '#', '\0'}
  }

  predicate AllPlain(s: string) {
    forall i :: 0 <= i < |s| ==> Plain(s[i])
  }

  lemma {:induction false} PlainReads(r: Reader, s: string)
    requires InTheOpen(r) && AllPlain(s)
    ensures FeedAll(r, s) == if s == "" then r else r.(mode := Word, word := r.word + s)
    decreases |s|
  {
    if s != "" {
      assert Plain(s[0]);
      var next := r.(mode := Word, word := r.word + [s[0]]);
      assert Feed(r, s[0]) == next;
      PlainReads(next, s[1..]);
      assert r.word + [s[0]] + s[1..] == r.word + s;
    }
  }

  lemma SpaceReads(r: Reader)
    requires InTheOpen(r)
    ensures FeedAll(r, " ") == EndWord(r)
  {
    assert " "[1..] == "";
  }

  // --- Quoting ------------------------------------------------------------------

  function Inner(s: string): string {
    if s == "" then "" else (if s[0] == '\'' then "'\\''" else [s[0]]) + Inner(s[1..])
  }

  function Quote(s: string): string {
    "'" + Inner(s) + "'"
  }

  lemma {:induction false} InnerStep(s: string, c: char)
    ensures Inner(s + [c]) == Inner(s) + if c == '\'' then "'\\''" else [c]
  {
    if s != "" {
      InnerStep(s[1..], c);
      assert (s + [c])[1..] == s[1..] + [c];
    } else {
      assert (s + [c])[1..] == "";
    }
  }

  method ShQuote(s: string) returns (out: string)
    ensures out == Quote(s)
  {
    out := "'";
    for i := 0 to |s|
      invariant out == "'" + Inner(s[..i])
    {
      InnerStep(s[..i], s[i]);
      assert s[..i] + [s[i]] == s[..i + 1];
      if s[i] == '\'' {
        out := out + "'\\''";
      } else {
        out := out + [s[i]];
      }
    }
    assert s[..|s|] == s;
    out := out + "'";
  }

  lemma EscapedQuoteReads(r: Reader)
    requires r.Reader? && r.mode.Quoted?
    ensures FeedAll(r, "'\\''") == r.(word := r.word + "'")
  {
    var s := "'\\''";
    assert s[1..] == "\\''" && s[1..][1..] == "''" && s[1..][1..][1..] == "'" && s[1..][1..][1..][1..] == "";
    assert Feed(r, '\'') == r.(mode := Word);
    assert Feed(Feed(r, '\''), '\\') == r.(mode := Escaped(true));
  }

  lemma {:induction false} InnerReads(r: Reader, s: string)
    requires r.Reader? && r.mode.Quoted?
    ensures FeedAll(r, Inner(s)) == if '\0' in s then Refused else r.(word := r.word + s)
    decreases |s|
  {
    if s == "" {
      assert r.word + s == r.word;
    } else {
      var head := if s[0] == '\'' then "'\\''" else [s[0]];
      FeedAppend(r, head, Inner(s[1..]));
      assert s == [s[0]] + s[1..];
      if s[0] == '\0' {
        assert head[1..] == "";
        RefusedStays(Inner(s[1..]));
      } else {
        var next := r.(word := r.word + [s[0]]);
        assert FeedAll(r, head) == next by {
          if s[0] == '\'' {
            EscapedQuoteReads(r);
          } else {
            assert head[1..] == "";
          }
        }
        InnerReads(next, s[1..]);
        assert r.word + [s[0]] + s[1..] == r.word + s;
      }
    }
  }

  // A quoted text is read as that text, whatever it holds but NUL, which no
  // argument can hold.
  lemma QuoteReads(r: Reader, s: string)
    requires InTheOpen(r)
    ensures FeedAll(r, Quote(s)) == if '\0' in s then Refused else r.(mode := Word, word := r.word + s)
  {
    var q := r.(mode := Quoted);
    FeedAppend(r, "'" + Inner(s), "'");
    FeedAppend(r, "'", Inner(s));
    assert "'"[1..] == "";
    assert FeedAll(r, "'") == q;
    InnerReads(q, s);
  }

  // --- Lists of words -----------------------------------------------------------

  // A word printed as a plain name and then a quoted text.
  datatype Piece = Piece(name: string, text: string)

  function WordOf(p: Piece): string {
    p.name + p.text
  }

  function WordsOf(ps: seq<Piece>): (words: seq<string>)
    ensures |words| == |ps|
  {
    seq(|ps|, i requires 0 <= i < |ps| => WordOf(ps[i]))
  }

  // Each word after a space.
  function Spaced(ps: seq<Piece>): string {
    if ps == [] then ""
    else Spaced(ps[..|ps| - 1]) + " " + ps[|ps| - 1].name + Quote(ps[|ps| - 1].text)
  }

  predicate NamesPlain(ps: seq<Piece>) {
    forall i :: 0 <= i < |ps| ==> AllPlain(ps[i].name)
  }

  predicate NoNul(ps: seq<Piece>) {
    forall i :: 0 <= i < |ps| ==> '\0' !in ps[i].text
  }

  // Between words nothing is pending.
  predicate AtRest(r: Reader) {
    InTheOpen(r) && (r.mode.Between? ==> r.word == "")
  }

  // `v` is `r` with more words read.
  predicate Read(r: Reader, more: seq<string>, v: Reader) {
    AtRest(r) && AtRest(v) && EndWord(v) == Reader(Between, "", EndWord(r).words + more, r.commands)
  }

  lemma ReadOn(r: Reader, a: seq<string>, v: Reader, b: seq<string>, w: Reader)
    requires Read(r, a, v) && Read(v, b, w)
    ensures Read(r, a + b, w)
  {
    assert EndWord(r).words + a + b == EndWord(r).words + (a + b);
  }

  lemma PieceReads(r: Reader, p: Piece)
    requires AtRest(r) && AllPlain(p.name)
    ensures var v := FeedAll(r, " " + p.name + Quote(p.text));
      if '\0' in p.text then v == Refused else Read(r, [WordOf(p)], v)
  {
    FeedAppend(r, " " + p.name, Quote(p.text));
    FeedAppend(r, " ", p.name);
    SpaceReads(r);
    assert EndWord(r).word == "";
    PlainReads(EndWord(r), p.name);
    var named := FeedAll(EndWord(r), p.name);
    assert named.word == p.name && named.words == EndWord(r).words;
    QuoteReads(named, p.text);
  }

  lemma {:induction false} SpacedReads(r: Reader, ps: seq<Piece>)
    requires AtRest(r) && NamesPlain(ps)
    ensures var v := FeedAll(r, Spaced(ps));
      if NoNul(ps) then Read(r, WordsOf(ps), v) else v == Refused
    decreases |ps|
  {
    if ps == [] {
      assert EndWord(r).words + WordsOf(ps) == EndWord(r).words;
    } else {
      var n := |ps| - 1;
      var front, p := ps[..n], ps[n];
      SpacedReads(r, front);
      var piece := " " + p.name + Quote(p.text);
      assert Spaced(ps) == Spaced(front) + piece;
      FeedAppend(r, Spaced(front), piece);
      var v := FeedAll(r, Spaced(front));
      if NoNul(front) {
        PieceReads(v, p);
        assert WordsOf(ps) == WordsOf(front) + [WordOf(p)];
        if '\0' !in p.text {
          ReadOn(r, WordsOf(front), v, [WordOf(p)], FeedAll(v, piece));
        }
      } else {
        var i :| 0 <= i < |front| && '\0' in front[i].text;
        assert ps[i] == front[i];
        RefusedStays(piece);
      }
    }
  }
}
