// Request bodies over a route's limit: read to their end within a ceiling and
// thrown away, so that the client reads its answer after its last byte.
module BodyLimits {
  import opened Basics

  const USIZE_MAX: nat := 0xFFFF_FFFF_FFFF_FFFF
  const DRAIN_FACTOR: nat := 4
  const REFUSAL_READ: nat := 65536

  datatype Frame = Data(bytes: Bytes) | Trailers

  // How a body stops arriving: at its end, with an error, or not within the
  // time it is given.
  datatype Ending = End | Failed(error: string) | Stalled

  datatype Body = Body(frames: seq<Frame>, ending: Ending)

  // The lower and upper bound a body gives for its length.
  datatype SizeHint = SizeHint(lower: nat, upper: Option<nat>)

  // What reading a body comes to; `Pending` when it stalled.
  datatype Read = Fits(bytes: Bytes) | Over | PastCeiling | Broken(error: string) | Pending

  function BytesOf(f: Frame): Bytes {
    if f.Data? then f.bytes else []
  }

  function Content(frames: seq<Frame>): Bytes {
    if frames == [] then [] else Content(frames[..|frames| - 1]) + BytesOf(frames[|frames| - 1])
  }

  lemma ContentStep(frames: seq<Frame>, i: nat)
    requires i < |frames|
    ensures Content(frames[..i + 1]) == Content(frames[..i]) + BytesOf(frames[i])
  {
    assert frames[..i + 1][..i] == frames[..i];
  }

  lemma {:induction false} ContentGrows(frames: seq<Frame>, i: nat)
    requires i <= |frames|
    ensures |Content(frames[..i])| <= |Content(frames)|
  {
    if i == |frames| {
      assert frames[..i] == frames;
    } else {
      ContentGrows(frames[..|frames| - 1], i);
      assert frames[..|frames| - 1][..i] == frames[..i];
    }
  }

  // What reading a body should come to: its content and its ending decide,
  // its frames do not.
  function Verdict(content: Bytes, ending: Ending, limit: nat, ceiling: nat, keep: bool): Read {
    if |content| > ceiling then PastCeiling
    else match ending
      case Failed(e) => Broken(e)
      case Stalled => Pending
      case End => if keep && |content| <= limit then Fits(content) else Over
  }

  // Where the reading of a body stands: the bytes read so far and those kept,
  // if any are to be, or past the ceiling.
  datatype Reader = Reading(read: nat, kept: Option<Bytes>) | Past

  function Fresh(keep: bool): Reader {
    Reading(0, if keep then Some([]) else None)
  }

  // One frame more.
  function ReadFrame(r: Reader, frame: Frame, limit: nat, ceiling: nat): Reader {
    if r.Past? || frame.Trailers? then r
    else
      var read := r.read + |frame.bytes|;
      if read > ceiling then Past
      else Reading(read, if r.kept.Some? && read <= limit then Some(r.kept.value + frame.bytes) else r.kept)
  }

  function ReadFrames(frames: seq<Frame>, limit: nat, ceiling: nat, keep: bool): Reader {
    if frames == [] then Fresh(keep)
    else ReadFrame(ReadFrames(frames[..|frames| - 1], limit, ceiling, keep), frames[|frames| - 1], limit, ceiling)
  }

  function Finish(r: Reader, ending: Ending, limit: nat): Read {
    if r.Past? then PastCeiling
    else match ending
      case Failed(e) => Broken(e)
      case Stalled => Pending
      case End => if r.kept.Some? && r.read <= limit then Fits(r.kept.value) else Over
  }

  // However many frames have come, no more than `limit` bytes are kept, and
  // what is kept is the front of what came.
  lemma {:induction false} NeverKeepsMore(frames: seq<Frame>, limit: nat, ceiling: nat, keep: bool)
    ensures var r := ReadFrames(frames, limit, ceiling, keep);
      r.Reading? && r.kept.Some? ==> |r.kept.value| <= limit && r.kept.value <= Content(frames)
  {
    if frames != [] {
      NeverKeepsMore(frames[..|frames| - 1], limit, ceiling, keep);
      ReadsTheContent(frames[..|frames| - 1], limit, ceiling, keep);
    }
  }

  // Where the reading stands is told by the content alone.
  lemma {:induction false} ReadsTheContent(frames: seq<Frame>, limit: nat, ceiling: nat, keep: bool)
    ensures var r, content := ReadFrames(frames, limit, ceiling, keep), Content(frames);
      && (r.Past? <==> |content| > ceiling)
      && (r.Reading? ==> r.read == |content| && (r.kept.Some? <==> keep))
      && (r.Reading? && keep && |content| <= limit ==> r.kept == Some(content))
  {
    if frames != [] {
      var front, last := frames[..|frames| - 1], frames[|frames| - 1];
      ReadsTheContent(front, limit, ceiling, keep);
      if last.Trailers? {
        assert Content(frames) == Content(front) + [] == Content(front);
      }
    }
  }

  // So what reading comes to depends on the content and the ending, and not on
  // how the body is cut into frames or what trailers come with it.
  lemma ReadingIsTheVerdict(body: Body, limit: nat, ceiling: nat, keep: bool)
    ensures Finish(ReadFrames(body.frames, limit, ceiling, keep), body.ending, limit)
      == Verdict(Content(body.frames), body.ending, limit, ceiling, keep)
  {
    ReadsTheContent(body.frames, limit, ceiling, keep);
  }

  lemma FramingIsNotSeen(a: Body, b: Body, limit: nat, ceiling: nat, keep: bool)
    requires Content(a.frames) == Content(b.frames) && a.ending == b.ending
    ensures Finish(ReadFrames(a.frames, limit, ceiling, keep), a.ending, limit)
      == Finish(ReadFrames(b.frames, limit, ceiling, keep), b.ending, limit)
  {
    ReadingIsTheVerdict(a, limit, ceiling, keep);
    ReadingIsTheVerdict(b, limit, ceiling, keep);
  }

  lemma OneFrameMore(frames: seq<Frame>, n: nat, limit: nat, ceiling: nat, keep: bool)
    requires n < |frames|
    ensures ReadFrames(frames[..n + 1], limit, ceiling, keep)
      == ReadFrame(ReadFrames(frames[..n], limit, ceiling, keep), frames[n], limit, ceiling)
  {
    assert frames[..n + 1][..n] == frames[..n];
  }

  // Once over the ceiling the answer is known, whatever is still to come.
  lemma PastIsPast(body: Body, n: nat, limit: nat, ceiling: nat, keep: bool)
    requires n <= |body.frames| && ReadFrames(body.frames[..n], limit, ceiling, keep).Past?
    ensures Verdict(Content(body.frames), body.ending, limit, ceiling, keep) == PastCeiling
  {
    ReadsTheContent(body.frames[..n], limit, ceiling, keep);
    ContentGrows(body.frames, n);
  }

  // Reads frame by frame, holding nothing but the reader's state. The frame
  // that passes the ceiling is the last one read.
  method ReadBody(body: Body, limit: nat, ceiling: nat, keep: bool) returns (r: Read, polled: nat, state: Reader)
    ensures polled <= |body.frames| && state == ReadFrames(body.frames[..polled], limit, ceiling, keep)
    ensures r == Finish(state, body.ending, limit)
    ensures r == Verdict(Content(body.frames), body.ending, limit, ceiling, keep)
    ensures r.PastCeiling? ==> polled > 0 && |Content(body.frames[..polled - 1])| <= ceiling
    ensures !r.PastCeiling? ==> polled == |body.frames|
  {
    var frames := body.frames;
    state := Fresh(keep);
    polled := 0;
    while polled < |frames|
      invariant polled <= |frames|
      invariant state.Reading? && state == ReadFrames(frames[..polled], limit, ceiling, keep)
    {
      var frame := frames[polled];
      ReadsTheContent(frames[..polled], limit, ceiling, keep);
      OneFrameMore(frames, polled, limit, ceiling, keep);
      polled := polled + 1;
      if frame.Trailers? {
        continue;
      }
      var data := frame.bytes;
      var read := state.read + |data|;
      if read > ceiling {
        PastIsPast(body, polled, limit, ceiling, keep);
        return PastCeiling, polled, Past;
      }
      var kept := state.kept;
      if kept.Some? && read <= limit {
        kept := Some(kept.value + data);
      }
      state := Reading(read, kept);
    }
    assert frames[..polled] == frames;
    ReadingIsTheVerdict(body, limit, ceiling, keep);
    match body.ending
    case Failed(e) => r := Broken(e);
    case Stalled => r := Pending;
    case End =>
      if state.kept.Some? && state.read <= limit {
        r := Fits(state.kept.value);
      } else {
        r := Over;
      }
  }

  // --- The drain ------------------------------------------------------------------

  datatype Request = Request(headers: map<string, string>, body: Body)

  // The answer: the route's, to the request it was run on, or the drain's
  // own 408 or 400; and whether the connection is closed after it.
  datatype Answer = Routed(req: Request, closes: bool) | TimedOut | BadRequest(error: string)

  predicate Closes(a: Answer) {
    a.Routed? ==> a.closes
  }

  function SaturatingMul(a: nat, b: nat): nat {
    if a * b <= USIZE_MAX then a * b else USIZE_MAX
  }

  function Ceiling(limit: nat): nat {
    SaturatingMul(limit, DRAIN_FACTOR)
  }

  function Whole(bytes: Bytes): Body {
    Body([Data(bytes)], End)
  }

  // The stand-in the route refuses as it would the real one.
  function OverLimit(headers: map<string, string>, limit: nat): Request {
    Request((headers - {"transfer-encoding"})["content-length" := Decimal(limit + 1)],
      Whole(seq(limit + 1, i => ' ')))
  }

  method DrainOverLimit(req: Request, hint: SizeHint, limit: nat) returns (a: Answer, polled: nat)
    requires limit < USIZE_MAX
    ensures a == Drained(req, hint, limit)
    ensures polled <= |req.body.frames|
    ensures !Closes(a) && a.req != req ==> polled == |req.body.frames|
    ensures hint.upper.Some? && hint.upper.value <= limit ==> polled == 0
    ensures polled > 0 ==> |Content(req.body.frames[..polled - 1])| <= Ceiling(limit)
  {
    if hint.upper.Some? && hint.upper.value <= limit {
      return Routed(req, false), 0;
    }
    var ceiling := Ceiling(limit);
    if hint.lower > ceiling {
      return Routed(OverLimit(req.headers, limit), true), 0;
    }
    var keep := hint.upper.None?;
    var read, n, _ := ReadBody(req.body, limit, ceiling, keep);
    polled := n;
    if !read.PastCeiling? {
      assert req.body.frames[..polled] == req.body.frames;
      if polled > 0 {
        ContentGrows(req.body.frames, polled - 1);
      }
    }
    match read
    case Fits(kept) => a := Routed(Request(req.headers, Whole(kept)), false);
    case Over => a := Routed(OverLimit(req.headers, limit), false);
    case PastCeiling => a := Routed(OverLimit(req.headers, limit), true);
    case Pending => a := TimedOut;
    case Broken(e) => a := BadRequest(e);
  }

  function Drained(req: Request, hint: SizeHint, limit: nat): Answer {
    if hint.upper.Some? && hint.upper.value <= limit then Routed(req, false)
    else if hint.lower > Ceiling(limit) then Routed(OverLimit(req.headers, limit), true)
    else match Verdict(Content(req.body.frames), req.body.ending, limit, Ceiling(limit), hint.upper.None?)
      case Fits(kept) => Routed(Request(req.headers, Whole(kept)), false)
      case Over => Routed(OverLimit(req.headers, limit), false)
      case PastCeiling => Routed(OverLimit(req.headers, limit), true)
      case Pending => TimedOut
      case Broken(e) => BadRequest(e)
  }

  // --- What the route sees --------------------------------------------------------

  // A body that arrives whole keeps to the bounds it gave.
  predicate Honest(hint: SizeHint, body: Body) {
    var n := |Content(body.frames)|;
    body.ending.End? && hint.lower <= n && (hint.upper.Some? ==> n <= hint.upper.value)
  }

  // The route takes a body of at most `limit` bytes.
  predicate Takes(req: Request, limit: nat) {
    req.body.ending.End? && |Content(req.body.frames)| <= limit
  }

  // The route is run on the caller's own bytes, and takes them.
  predicate SeesTheBody(a: Answer, req: Request, limit: nat) {
    a.Routed? && Takes(a.req, limit) && Content(a.req.body.frames) == Content(req.body.frames)
      && a.req.headers == req.headers
  }

  lemma WholeIsWhole(bytes: Bytes)
    ensures Content(Whole(bytes).frames) == bytes
  {
    assert Whole(bytes).frames[..0] == [];
  }

  // The stand-in: one byte over the limit and saying so, sent whole and not in
  // chunks, with every other header as it came.
  lemma TheStandInIsOneByteOver(headers: map<string, string>, limit: nat)
    ensures var req := OverLimit(headers, limit);
      && req.body.ending == End && |Content(req.body.frames)| == limit + 1
      && "content-length" in req.headers && ReadDecimal(req.headers["content-length"]) == Some(limit + 1)
      && "transfer-encoding" !in req.headers
      && forall h :: h != "content-length" && h != "transfer-encoding" ==>
        (h in req.headers <==> h in headers) && (h in headers ==> req.headers[h] == headers[h])
  {
    WholeIsWhole(seq(limit + 1, i => ' '));
    DecimalReadsBack(limit + 1);
  }

  lemma TheStandInIsRefused(headers: map<string, string>, limit: nat)
    ensures !Takes(OverLimit(headers, limit), limit)
  {
    WholeIsWhole(seq(limit + 1, i => ' '));
  }

  // A body that arrives whole reaches the route exactly when it fits and the
  // bound it gave, if it gave one, fits too. Anything else the route answers
  // as over its limit; and the connection is closed just when the body, or
  // the length it gave, is past the ceiling.
  lemma WhatTheRouteSees(req: Request, hint: SizeHint, limit: nat)
    requires limit < USIZE_MAX && Honest(hint, req.body)
    ensures var a := Drained(req, hint, limit);
      var n := |Content(req.body.frames)|;
      && a.Routed?
      && (SeesTheBody(a, req, limit) <==> n <= limit && (hint.upper.Some? ==> hint.upper.value <= limit))
      && (!SeesTheBody(a, req, limit) ==> !Takes(a.req, limit) && a.req == OverLimit(req.headers, limit))
      && (Closes(a) <==> n > Min(4 * limit, 0xFFFF_FFFF_FFFF_FFFF))
  {
    TheStandInIsRefused(req.headers, limit);
    WholeIsWhole(Content(req.body.frames));
    CeilingIsFourfold(limit);
    var a, n := Drained(req, hint, limit), |Content(req.body.frames)|;
    if hint.upper.Some? && hint.upper.value <= limit {
      assert a == Routed(req, false);
    } else if n > Ceiling(limit) {
      assert a == Routed(OverLimit(req.headers, limit), true);
    } else if n <= limit && hint.upper.None? {
      assert a == Routed(Request(req.headers, Whole(Content(req.body.frames))), false);
    } else {
      assert a == Routed(OverLimit(req.headers, limit), false);
    }
  }

  lemma CeilingIsFourfold(limit: nat)
    requires limit < USIZE_MAX
    ensures limit <= Ceiling(limit) == Min(4 * limit, 0xFFFF_FFFF_FFFF_FFFF)
  {
  }

  // A body that stops short of its end without passing the ceiling is answered
  // by the drain itself, 408 for the time and 400 for an error, and the
  // connection closed; unless it said that it fits, and is the route's.
  lemma WhatTheDrainAnswers(req: Request, hint: SizeHint, limit: nat)
    requires limit < USIZE_MAX && req.body.ending != End
    requires hint.lower <= |Content(req.body.frames)| && (hint.upper.Some? ==> hint.upper.value > limit)
    ensures var a, n := Drained(req, hint, limit), |Content(req.body.frames)|;
      && Closes(a)
      && (a == TimedOut <==> req.body.ending == Stalled && n <= Min(4 * limit, 0xFFFF_FFFF_FFFF_FFFF))
      && (forall e :: a == BadRequest(e) <==> req.body.ending == Failed(e) && n <= Min(4 * limit, 0xFFFF_FFFF_FFFF_FFFF))
      && (n > Min(4 * limit, 0xFFFF_FFFF_FFFF_FFFF) ==> a == Routed(OverLimit(req.headers, limit), true))
  {
  }

  // For a body of exact or of unknown length that is: exactly when it fits.
  lemma ExactOrUnknownLengthsAreTreatedRight(req: Request, hint: SizeHint, limit: nat)
    requires limit < USIZE_MAX && Honest(hint, req.body)
    requires hint.upper.Some? ==> hint.upper.value == hint.lower
    ensures SeesTheBody(Drained(req, hint, limit), req, limit) <==> |Content(req.body.frames)| <= limit
  {
    WhatTheRouteSees(req, hint, limit);
  }

  // With a loose upper bound a body that fits is answered as if it did not.
  lemma ALooseBoundRefusesABodyThatFits(limit: nat)
    requires limit < USIZE_MAX
    ensures var req, hint := Request(map[], Body([], End)), SizeHint(0, Some(limit + 1));
      && Honest(hint, req.body) && |Content(req.body.frames)| <= limit
      && !Takes(Drained(req, hint, limit).req, limit)
  {
    var req, hint := Request(map[], Body([], End)), SizeHint(0, Some(limit + 1));
    WhatTheRouteSees(req, hint, limit);
  }

  // --- Refusing a caller ----------------------------------------------------------

  predicate SmallBody(body: Body) {
    body.ending.End? && |Content(body.frames)| <= REFUSAL_READ
  }

  // The refusal of an unauthenticated caller: the connection stays usable only
  // if the body said it was small, and all of it was read.
  method Refuse(body: Body, hint: SizeHint) returns (closes: bool, polled: nat)
    ensures closes <==> !(hint.upper.Some? && hint.upper.value <= REFUSAL_READ && SmallBody(body))
    ensures !closes ==> polled == |body.frames|
    ensures polled > 0 ==> polled <= |body.frames| && |Content(body.frames[..polled - 1])| <= REFUSAL_READ
  {
    polled := 0;
    if hint.upper.Some? && hint.upper.value <= REFUSAL_READ {
      var read, n, _ := ReadBody(body, 0, REFUSAL_READ, false);
      polled := n;
      if !read.PastCeiling? && polled > 0 {
        ContentGrows(body.frames, polled - 1);
      }
      if read.Fits? || read.Over? {
        return false, polled;
      }
    }
    return true, polled;
  }
}
