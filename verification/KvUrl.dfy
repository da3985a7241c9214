// A key's way to the daemon: percent-encoded into one path segment, through
// the URL parser's dot-segment removal, and decoded on the other side.
module KvUrls {
  import opened Basics
  import opened KvStores

  function HexUpper(d: nat): Byte
    requires d < 16
  {
    if d < 10 then ('0' as int + d) as char else ('A' as int + d - 10) as char
  }

  function EncodeByte(b: Byte, safe: Byte -> bool): string {
    if safe(b) then [b] else ['%', HexUpper(b as int / 16), HexUpper(b as int % 16)]
  }

  function Encoded(s: Bytes, safe: Byte -> bool): string {
    if s == [] then "" else EncodeByte(s[0], safe) + Encoded(s[1..], safe)
  }

  lemma {:induction false} EncodedStep(s: Bytes, b: Byte, safe: Byte -> bool)
    ensures Encoded(s + [b], safe) == Encoded(s, safe) + EncodeByte(b, safe)
  {
    if s == [] {
      assert (s + [b])[1..] == [];
    } else {
      EncodedStep(s[1..], b, safe);
      assert (s + [b])[1..] == s[1..] + [b];
      Assoc(EncodeByte(s[0], safe), Encoded(s[1..], safe), EncodeByte(b, safe));
    }
  }

  method Encode(s: Bytes, safe: Byte -> bool) returns (out: string)
    ensures out == Encoded(s, safe)
  {
    out := "";
    for i := 0 to |s|
      invariant out == Encoded(s[..i], safe)
    {
      EncodedStep(s[..i], s[i], safe);
      assert s[..i] + [s[i]] == s[..i + 1];
      if safe(s[i]) {
        out := out + [s[i]];
      } else {
        out := out + ['%', HexUpper(s[i] as int / 16), HexUpper(s[i] as int % 16)];
      }
    }
    assert s[..|s|] == s;
  }

  // Section 2.1 of RFC 3986; a `%` without two digits after it is left alone.
  function Decode(s: string): string
    decreases |s|
  {
    if s == "" then ""
    else if s[0] == '%' && |s| >= 3 && HexDigit(s[1]).Some? && HexDigit(s[2]).Some? then
      [(16 * HexDigit(s[1]).value + HexDigit(s[2]).value) as char] + Decode(s[3..])
    else [s[0]] + Decode(s[1..])
  }

  // Whatever is left as it is, as long as `%` is not, decoding undoes encoding.
  lemma {:induction false} EncodingDecodes(s: Bytes, safe: Byte -> bool)
    requires !safe('%')
    ensures Decode(Encoded(s, safe)) == s
  {
    if s != [] {
      EncodingDecodes(s[1..], safe);
      var head, rest := EncodeByte(s[0], safe), Encoded(s[1..], safe);
      assert (head + rest)[|head|..] == rest;
      assert [s[0]] + s[1..] == s;
      if !safe(s[0]) {
        assert HexDigit(head[1]) == Some(s[0] as int / 16) && HexDigit(head[2]) == Some(s[0] as int % 16);
      }
    }
  }

  predicate Alphanumeric(b: char) {
    'a' <= b <= 'z' || 'A' <= b <= 'Z' || '0' <= b <= '9'
  }

  predicate Unreserved(b: Byte) {
    Alphanumeric(b) || b == '_' || b == '~' || b == '-'
  }

  // A query string's values keep `.` and `/` as well.
  predicate QuerySafe(b: Byte) {
    Unreserved(b) || b == '.' || b == '/'
  }

  // A value in a query reads back too, and holds no separator of the query.
  lemma QueryValuesReadBack(s: Bytes)
    ensures Decode(Encoded(s, QuerySafe)) == s
    ensures forall c :: c in {'&', '=', '?', '#', '+', ' '} ==> c !in Encoded(s, QuerySafe)
  {
    EncodingDecodes(s, QuerySafe);
    forall c | c in {'&', '=', '?', '#', '+', ' '} ensures c !in Encoded(s, QuerySafe) {
      UnsafeIsEncoded(s, QuerySafe, c);
    }
  }

  // Neither an unsafe character nor one of the encoding's own is left.
  lemma {:induction false} UnsafeIsEncoded(s: Bytes, safe: Byte -> bool, c: Byte)
    requires !safe(c) && c != '%' && HexDigit(c).None?
    ensures c !in Encoded(s, safe)
  {
    if s != [] {
      UnsafeIsEncoded(s[1..], safe, c);
      assert forall d: nat :: d < 16 ==> HexDigit(HexUpper(d)) == Some(d);
      assert c !in EncodeByte(s[0], safe);
    }
  }

  function PathEncode(key: Bytes): string {
    Encoded(key, Unreserved)
  }

  // What an encoded key is written with: nothing a URL parser or a router
  // treats as anything but a letter, but `%` itself.
  predicate SegmentChar(c: char) {
    Alphanumeric(c) || c in {'_', '~', '-', '%'}
  }

  lemma {:induction false} EncodedIsOneSegment(key: Bytes)
    ensures forall i :: 0 <= i < |PathEncode(key)| ==> SegmentChar(PathEncode(key)[i])
  {
    if key != [] {
      EncodedIsOneSegment(key[1..]);
      var head := EncodeByte(key[0], Unreserved);
      forall i | 0 <= i < |PathEncode(key)| ensures SegmentChar(PathEncode(key)[i]) {
        if i >= |head| {
          assert PathEncode(key)[i] == PathEncode(key[1..])[i - |head|];
        }
      }
    }
  }

  // --- Dot segments ---------------------------------------------------------------

  // Section 5.2.4 of RFC 3986, with the spellings of section 4.4 of the WHATWG
  // URL standard.
  predicate SingleDot(seg: string) {
    seg in {".", "%2e", "%2E"}
  }

  predicate DoubleDot(seg: string) {
    seg in {"..", ".%2e", ".%2E", "%2e.", "%2E.", "%2e%2e", "%2e%2E", "%2E%2e", "%2E%2E"}
  }

  function Parent(path: seq<string>): seq<string> {
    if path == [] then [] else path[..|path| - 1]
  }

  // The segments a parser keeps; a dot segment at the end leaves an empty one.
  function RemoveDots(path: seq<string>, segs: seq<string>): seq<string>
    decreases |segs|
  {
    if segs == [] then path
    else
      var last := |segs| == 1;
      if DoubleDot(segs[0]) then RemoveDots(Parent(path) + if last then [""] else [], segs[1..])
      else if SingleDot(segs[0]) then RemoveDots(path + if last then [""] else [], segs[1..])
      else RemoveDots(path + [segs[0]], segs[1..])
  }

  // The path of a URL, cut at its query or fragment.
  function PathPart(s: string): string {
    if s == "" || s[0] == '?' || s[0] == '#' then "" else [s[0]] + PathPart(s[1..])
  }

  function ParsedPath(s: string): seq<string> {
    RemoveDots([], Split(PathPart(s), '/'))
  }

  lemma SingleDotIsADot(seg: string)
    requires SingleDot(seg)
    ensures Decode(seg) == "."
  {
    if seg != "." {
      assert seg[3..] == "";
    } else {
      assert seg[1..] == "";
    }
  }

  lemma DoubleDotIsTwo(seg: string)
    requires DoubleDot(seg)
    ensures Decode(seg) == ".."
  {
    if seg[0] == '.' {
      assert seg[1..] in {".", "%2e", "%2E"};
      SingleDotIsADot(seg[1..]);
    } else {
      assert seg[3..] in {".", "%2e", "%2E"};
      SingleDotIsADot(seg[3..]);
    }
  }

  // An encoded key is a dot segment for exactly two keys.
  lemma OnlyDotsEncodeToDots(key: Bytes)
    ensures SingleDot(PathEncode(key)) <==> key == "."
    ensures DoubleDot(PathEncode(key)) <==> key == ".."
  {
    EncodingDecodes(key, Unreserved);
    if SingleDot(PathEncode(key)) {
      SingleDotIsADot(PathEncode(key));
    }
    if DoubleDot(PathEncode(key)) {
      DoubleDotIsTwo(PathEncode(key));
    }
    if key == "." {
      assert key[1..] == "";
      assert PathEncode(key) == "%2E";
    }
    if key == ".." {
      assert key[1..] == "." && key[1..][1..] == "";
      assert PathEncode(key) == "%2E" + "%2E";
      assert "%2E" + "%2E" == "%2E%2E";
    }
  }

  predicate PlainSegment(seg: string) {
    '/' !in seg && '?' !in seg && '#' !in seg && !SingleDot(seg) && !DoubleDot(seg)
  }

  predicate PlainSegments(segs: seq<string>) {
    forall i :: 0 <= i < |segs| ==> PlainSegment(segs[i])
  }

  lemma {:induction false} PlainSegmentsStay(path: seq<string>, prefix: seq<string>, segs: seq<string>)
    requires PlainSegments(prefix) && segs != []
    ensures RemoveDots(path, prefix + segs) == RemoveDots(path + prefix, segs)
    decreases |prefix|
  {
    if prefix == [] {
      assert prefix + segs == segs;
      assert path + prefix == path;
    } else {
      assert PlainSegment(prefix[0]);
      assert (prefix + segs)[1..] == prefix[1..] + segs;
      PlainSegmentsStay(path + [prefix[0]], prefix[1..], segs);
      assert path + [prefix[0]] + prefix[1..] == path + prefix;
    }
  }

  lemma {:induction false} NoQueryNoCut(s: string)
    requires '?' !in s && '#' !in s
    ensures PathPart(s) == s
  {
    if s != "" {
      NoQueryNoCut(s[1..]);
    }
  }

  lemma {:induction false} JoinHolds(parts: seq<string>, c: char)
    requires |parts| >= 1 && c != '/' && forall i :: 0 <= i < |parts| ==> c !in parts[i]
    ensures c !in Join(parts, '/')
  {
    if |parts| > 1 {
      JoinHolds(parts[1..], c);
    }
  }

  // A key's URL path, after any plain segments: parsed it is those segments
  // and one more, which decodes to the key, exactly when the key is neither
  // `.` nor `..`, whose URL leads elsewhere.
  lemma TheKeyIsOneSegment(prefix: seq<string>, key: Bytes)
    requires PlainSegments(prefix)
    ensures Decode(PathEncode(key)) == key
    ensures ParsedPath(Join(prefix + [PathEncode(key)], '/')) == prefix + [PathEncode(key)]
      <==> key != "." && key != ".."
  {
    EncodingDecodes(key, Unreserved);
    EncodedIsOneSegment(key);
    OnlyDotsEncodeToDots(key);
    var seg := PathEncode(key);
    var segs := prefix + [seg];
    assert '/' !in seg && '?' !in seg && '#' !in seg;
    forall i | 0 <= i < |segs| ensures '/' !in segs[i] && '?' !in segs[i] && '#' !in segs[i] {
      assert i < |prefix| ==> PlainSegment(prefix[i]);
    }
    JoinHolds(segs, '?');
    JoinHolds(segs, '#');
    NoQueryNoCut(Join(segs, '/'));
    SplitJoin(segs, '/');
    PlainSegmentsStay([], prefix, [seg]);
    assert [] + prefix == prefix;
    LastSegment(prefix, seg);
  }

  lemma LastSegment(path: seq<string>, seg: string)
    ensures RemoveDots(path, [seg]) == path + [seg] <==> !SingleDot(seg) && !DoubleDot(seg)
  {
    assert [seg][1..] == [];
    if DoubleDot(seg) {
      var got := Parent(path) + [""];
      assert |got| < |path + [seg]| || got[|got| - 1] == "" != seg;
    } else if SingleDot(seg) {
      assert (path + [""])[|path|] == "" != seg == (path + [seg])[|path|];
    }
  }

  // --- The client and the daemon ----------------------------------------------------

  const KV: seq<string> := ["", "v1", "plugin-host", "kv"]

  datatype Refused = Refused(status: nat)

  // A key's URL path; a key the daemon would refuse is refused at once.
  function KeyUrl(key: Bytes): Result<string, Refused> {
    if ValidKey(key) then Ok(Join(KV + [PathEncode(key)], '/')) else Err(Refused(400))
  }

  // The daemon's route `kv/{*key}`: what follows its segments, decoded.
  function DaemonKey(path: string): Option<string> {
    var segs := ParsedPath(path);
    if |segs| > |KV| && segs[..|KV|] == KV then Some(Decode(Join(segs[|KV|..], '/'))) else None
  }

  lemma TheRouteIsPlain()
    ensures PlainSegments(KV)
  {
  }

  // A key gets a URL if and only if the daemon would take it, and by that URL
  // the daemon reads the key it was built from.
  lemma TheDaemonReadsTheKey(key: Bytes)
    ensures KeyUrl(key).Ok? <==> ValidKey(key)
    ensures KeyUrl(key).Ok? ==> DaemonKey(KeyUrl(key).value) == Some(key)
  {
    if ValidKey(key) {
      NoKeyIsDots(key);
      TheRouteIsPlain();
      TheKeyIsOneSegment(KV, key);
      var seg := PathEncode(key);
      assert (KV + [seg])[..|KV|] == KV && (KV + [seg])[|KV|..] == [seg];
    }
  }

  lemma AKeyWithoutSlashesIsASegment(key: string)
    requires '/' !in key
    ensures key in Split(key, '/')
  {
    SplitJoin([key], '/');
    assert Join([key], '/') == key;
    assert [key][0] == key;
  }

  lemma NoKeyIsDots(key: Bytes)
    requires ValidKey(key)
    ensures key != "." && key != ".."
  {
    if '/' !in key {
      AKeyWithoutSlashesIsASegment(key);
    }
  }

  // Two keys never share a URL.
  lemma UrlsAreDistinct(a: Bytes, b: Bytes)
    requires KeyUrl(a).Ok? && KeyUrl(a) == KeyUrl(b)
    ensures a == b
  {
    TheDaemonReadsTheKey(a);
    TheDaemonReadsTheKey(b);
  }
}
