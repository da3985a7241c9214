// The text of the frames a sidecar sends, byte by byte as `serde_json` writes
// them, and the link's limit on it.
module LinkFrames {
  import opened Basics

  const LINK_MAX_MESSAGE: nat := 16777216
  const WORKSPACE_FILE_LIMIT: nat := 1048576
  const WORKSPACE_DIFF_LIMIT: nat := 8388608
  const WORKSPACE_TREE_ENTRY_LIMIT: nat := 5000
  const REF_LIMIT: nat := 4096
  const NAME_LIMIT: nat := 255
  const OBJECT_ID_LIMIT: nat := 64
  const KIB: nat := 1024

  type U64 = n: nat | n < 0x1_0000_0000_0000_0000

  datatype FileStatus = Added | Modified | Deleted | Renamed | Copied | Typechange

  datatype FileDiff = FileDiff(path: Bytes, oldPath: Option<Bytes>, status: FileStatus, uncommitted: bool,
                               binary: bool, patch: Bytes, truncated: bool)

  datatype WorkspaceDiff = WorkspaceDiff(baseRef: Bytes, mergeBase: Bytes, head: Bytes, files: seq<FileDiff>,
                                         truncated: bool)

  datatype EntryKind = AFile | ADir | ASymlink | AnOther

  datatype TreeEntry = TreeEntry(name: Bytes, kind: EntryKind, size: Option<U64>)

  datatype WorkspaceTree = WorkspaceTree(path: Bytes, entries: seq<TreeEntry>, truncated: bool)

  datatype WorkspaceVersion = WorkspaceVersion(head: Bytes, fingerprint: Bytes)

  datatype FailureKind =
    | Missing | NoSuchPath | InvalidPath | NotAFile | NotADirectory
    | TooLarge(limit: U64)
    | Tool | Filter | Io | Runner

  datatype LinkResult =
    | Done
    | Diff(diff: WorkspaceDiff)
    | File(bytes: Bytes)
    | Tree(tree: WorkspaceTree)
    | Version(version: WorkspaceVersion)
    | Failed(reason: FailureKind, message: Bytes)

  // A status frame is taken as the text of its members after the tag.
  datatype SidecarFrame = Status(members: string) | Reply(id: U64, result: LinkResult)

  // --- JSON strings (section 7 of RFC 8259) ---------------------------------------

  function Hex(d: nat): Byte
    requires d < 16
  {
    if d < 10 then ('0' as int + d) as char else ('a' as int + d - 10) as char
  }

  function Escaped(c: Byte): string {
    if c == '"' then ['\\', '"']
    else if c == '\\' then ['\\', '\\']
    else if c as int == 8 then ['\\', 'b']
    else if c as int == 12 then ['\\', 'f']
    else if c == '\n' then ['\\', 'n']
    else if c == '\r' then ['\\', 'r']
    else if c == '\t' then ['\\', 't']
    else if (c as int) < 0x20 then ['\\', 'u', '0', '0', Hex(c as int / 16), Hex(c as int % 16)]
    else [c]
  }

  function Escape(s: Bytes): string {
    if s == [] then [] else Escaped(s[0]) + Escape(s[1..])
  }

  function Str(s: Bytes): string {
    ['"'] + Escape(s) + ['"']
  }

  lemma {:induction false} AtMostSixFold(s: Bytes)
    ensures |s| <= |Escape(s)| <= 6 * |s|
  {
    if s != [] {
      AtMostSixFold(s[1..]);
    }
  }

  // A reader's view of a string, from after its opening quote: one character
  // (`None` at the closing quote or on an error) and what follows it.
  function ReadChar(s: string): Option<(char, string)> {
    if s == [] || s[0] == '"' || (s[0] as int) < 0x20 then None
    else if s[0] != '\\' then Some((s[0], s[1..]))
    else if |s| < 2 then None
    else if s[1] in {'"', '\\', '/'} then Some((s[1], s[2..]))
    else if s[1] == 'b' then Some((8 as char, s[2..]))
    else if s[1] == 'f' then Some((12 as char, s[2..]))
    else if s[1] == 'n' then Some(('\n', s[2..]))
    else if s[1] == 'r' then Some(('\r', s[2..]))
    else if s[1] == 't' then Some(('\t', s[2..]))
    else if s[1] == 'u' && |s| >= 6 && s[2] == '0' && s[3] == '0' then
      match (HexDigit(s[4]), HexDigit(s[5]))
      case (Some(a), Some(b)) => if a < 8 then Some(((16 * a + b) as char, s[6..])) else None
      case _ => None
    else None
  }

  function ReadString(s: string): Option<(string, string)>
    decreases |s|
  {
    if s != [] && s[0] == '"' then Some(([], s[1..]))
    else match ReadChar(s)
      case None => None
      case Some((c, rest)) =>
        if |rest| >= |s| then None
        else match ReadString(rest)
          case None => None
          case Some((text, after)) => Some(([c] + text, after))
  }

  lemma ReadEscaped(c: Byte, rest: string)
    ensures ReadChar(Escaped(c) + rest) == Some((c, rest)) && (Escaped(c) + rest)[0] != '"'
  {
    var s := Escaped(c) + rest;
    assert s[|Escaped(c)|..] == rest;
    if (c as int) < 0x20 && |Escaped(c)| == 6 {
      assert HexDigit(s[4]) == Some(c as int / 16) && HexDigit(s[5]) == Some(c as int % 16);
    }
  }

  // What is written as a JSON string is read back as it was, to its closing
  // quote and no further.
  lemma {:induction false} StringReadsBack(s: Bytes, rest: string)
    ensures ReadString(Escape(s) + ['"'] + rest) == Some((s, rest))
    decreases |s|
  {
    var t := Escape(s) + ['"'] + rest;
    if s == [] {
      assert t == ['"'] + rest;
      assert t[1..] == rest;
    } else {
      var more := Escape(s[1..]) + ['"'] + rest;
      assert t == Escaped(s[0]) + more;
      ReadEscaped(s[0], more);
      StringReadsBack(s[1..], rest);
      assert [s[0]] + s[1..] == s;
    }
  }

  // --- Lists ----------------------------------------------------------------------

  function Commas(items: seq<string>): string {
    if items == [] then []
    else if |items| == 1 then items[0]
    else Commas(items[..|items| - 1]) + "," + items[|items| - 1]
  }

  function List(items: seq<string>): string {
    "[" + Commas(items) + "]"
  }

  lemma {:induction false} CommasAtMost(items: seq<string>, most: nat)
    requires forall i :: 0 <= i < |items| ==> |items[i]| <= most
    ensures |Commas(items)| <= (most + 1) * |items|
  {
    var n := |items|;
    if n > 1 {
      CommasAtMost(items[..n - 1], most);
      assert (most + 1) * n == (most + 1) * (n - 1) + most + 1;
    }
  }

  lemma Scaled(a: nat, n: nat, most: nat)
    requires n <= most
    ensures a * n <= a * most
  {
  }

  // --- Frames ---------------------------------------------------------------------

  function Bool(b: bool): string {
    if b then "true" else "false"
  }

  function StatusName(s: FileStatus): string {
    match s
    case Added => "added"
    case Modified => "modified"
    case Deleted => "deleted"
    case Renamed => "renamed"
    case Copied => "copied"
    case Typechange => "typechange"
  }

  function TruncatedText(b: bool): string {
    ",\"truncated\":" + Bool(b) + "}"
  }

  function OldPathText(p: Option<Bytes>): string {
    if p.Some? then Str(p.value) else "null"
  }

  function FlagsText(f: FileDiff): string {
    ",\"uncommitted\":" + Bool(f.uncommitted)
    + ",\"binary\":" + Bool(f.binary)
    + ",\"patch\":" + Str(f.patch)
    + TruncatedText(f.truncated)
  }

  function FileText(f: FileDiff): string {
    "{\"path\":" + Str(f.path)
    + ",\"old_path\":" + OldPathText(f.oldPath)
    + ",\"status\":\"" + StatusName(f.status)
    + "\"" + FlagsText(f)
  }

  function FilesText(files: seq<FileDiff>): string {
    List(seq(|files|, i requires 0 <= i < |files| => FileText(files[i])))
  }

  function HeadAndFilesText(d: WorkspaceDiff): string {
    ",\"head\":" + Str(d.head) + ",\"files\":" + FilesText(d.files) + TruncatedText(d.truncated)
  }

  function DiffText(d: WorkspaceDiff): string {
    "{\"base_ref\":" + Str(d.baseRef) + ",\"merge_base\":" + Str(d.mergeBase) + HeadAndFilesText(d)
  }

  function KindName(k: EntryKind): string {
    match k
    case AFile => "file"
    case ADir => "dir"
    case ASymlink => "symlink"
    case AnOther => "other"
  }

  function SizeText(size: Option<U64>): string {
    if size.Some? then ",\"size\":" + Decimal(size.value) else ""
  }

  function EntryText(e: TreeEntry): string {
    "{\"name\":" + Str(e.name) + ",\"kind\":\"" + KindName(e.kind) + "\"" + SizeText(e.size) + "}"
  }

  function EntriesText(entries: seq<TreeEntry>): string {
    List(seq(|entries|, i requires 0 <= i < |entries| => EntryText(entries[i])))
  }

  function TreeText(t: WorkspaceTree): string {
    "{\"path\":" + Str(t.path) + ",\"entries\":" + EntriesText(t.entries) + TruncatedText(t.truncated)
  }

  function VersionText(v: WorkspaceVersion): string {
    "{\"head\":" + Str(v.head) + ",\"fingerprint\":" + Str(v.fingerprint) + "}"
  }

  function NumbersText(bytes: Bytes): string {
    List(seq(|bytes|, i requires 0 <= i < |bytes| => Decimal(bytes[i] as int)))
  }

  function ReasonName(r: FailureKind): string {
    match r
    case Missing => "missing"
    case NoSuchPath => "no_such_path"
    case InvalidPath => "invalid_path"
    case NotAFile => "not_a_file"
    case NotADirectory => "not_a_directory"
    case TooLarge(_) => "too_large"
    case Tool => "tool"
    case Filter => "filter"
    case Io => "io"
    case Runner => "runner"
  }

  function LimitText(r: FailureKind): string {
    if r.TooLarge? then ",\"limit\":" + Decimal(r.limit) else ""
  }

  function FailureText(reason: FailureKind, message: Bytes): string {
    "{\"reason\":\"" + ReasonName(reason) + "\"" + LimitText(reason) + ",\"message\":" + Str(message) + "}"
  }

  // An object that says its kind first.
  function Tagged(kind: string, body: string): string {
    "{\"kind\":\"" + kind + "\"" + body + "}"
  }

  // A result's kind, and its members after it.
  function KindAndBody(r: LinkResult): (string, string) {
    match r
    case Done => ("ok", "")
    case Diff(diff) => ("diff", ",\"diff\":" + DiffText(diff))
    case File(bytes) => ("file", ",\"bytes\":" + NumbersText(bytes))
    case Tree(tree) => ("tree", ",\"tree\":" + TreeText(tree))
    case Version(version) => ("version", ",\"version\":" + VersionText(version))
    case Failed(reason, message) => ("failed", ",\"failure\":" + FailureText(reason, message))
  }

  function ResultText(r: LinkResult): string {
    Tagged(KindAndBody(r).0, KindAndBody(r).1)
  }

  const REPLY_HEAD := "{\"frame\":\"reply\",\"id\":"

  function ReplyText(id: U64, result: string): string {
    REPLY_HEAD + Decimal(id) + ",\"result\":" + result + "}"
  }

  function Text(f: SidecarFrame): string {
    match f
    case Status(members) => "{\"frame\":\"status\"," + members + "}"
    case Reply(id, result) => ReplyText(id, ResultText(result))
  }

  // --- What the link carries --------------------------------------------------------

  datatype TooLong = TooLong(bytes: nat)

  function OverLimit(bytes: nat): LinkResult {
    Failed(Tool, "the reply is " + Decimal(bytes) + " bytes, over the link's limit of 16777216")
  }

  function FrameText(f: SidecarFrame): Result<string, TooLong> {
    var text := Text(f);
    if |text| <= LINK_MAX_MESSAGE then Ok(text)
    else match f
      case Status(_) => Err(TooLong(|text|))
      case Reply(id, _) => Ok(Text(Reply(id, OverLimit(|text|))))
  }

  // What the workspace caps, and git and the file system, keep a reply's parts
  // to; other answers are a short line.
  predicate WithinCaps(r: LinkResult) {
    match r
    case Done => true
    case Diff(d) =>
      && |d.baseRef| <= REF_LIMIT && |d.mergeBase| <= OBJECT_ID_LIMIT && |d.head| <= OBJECT_ID_LIMIT
      && |FilesText(d.files)| <= WORKSPACE_DIFF_LIMIT
    case File(bytes) => |bytes| <= WORKSPACE_FILE_LIMIT
    case Tree(t) =>
      && |t.path| <= REF_LIMIT && |t.entries| <= WORKSPACE_TREE_ENTRY_LIMIT
      && forall i :: 0 <= i < |t.entries| ==> |t.entries[i].name| <= NAME_LIMIT
    case Version(v) => |v.head| <= OBJECT_ID_LIMIT && |v.fingerprint| <= OBJECT_ID_LIMIT
    case Failed(_, message) => |message| <= KIB
  }

  // The size each kind of reply is documented to stay within: 8 MiB + 25 KiB,
  // 7.6 MiB, 4 MiB and an envelope, 1 KiB. A failure's message has its escapes.
  function Most(r: LinkResult): nat {
    match r
    case Diff(_) => WORKSPACE_DIFF_LIMIT + 25 * KIB
    case Tree(_) => 7_969_177
    case File(_) => 4 * WORKSPACE_FILE_LIMIT + 100
    case Failed(_, message) => KIB + 6 * |message|
    case _ => KIB
  }

  lemma U64Digits(n: U64)
    ensures |Decimal(n)| <= 20
  {
    assert Pow10(5) == 100000;
    assert Pow10(10) == 10000000000;
    assert Pow10(20) == 100000000000000000000;
    DecimalLength(n, 20);
  }

  lemma StrAtMost(s: Bytes, most: nat)
    requires |s| <= most
    ensures |Str(s)| <= 6 * most + 2
  {
    AtMostSixFold(s);
  }

  lemma DiffAtMost(d: WorkspaceDiff)
    requires WithinCaps(Diff(d))
    ensures |DiffText(d)| <= WORKSPACE_DIFF_LIMIT + 24578 + 2 * 386 + 64
  {
    StrAtMost(d.baseRef, REF_LIMIT);
    StrAtMost(d.mergeBase, OBJECT_ID_LIMIT);
    StrAtMost(d.head, OBJECT_ID_LIMIT);
  }

  lemma EntryAtMost(e: TreeEntry)
    requires |e.name| <= NAME_LIMIT
    ensures |EntryText(e)| <= 1586
  {
    StrAtMost(e.name, NAME_LIMIT);
    if e.size.Some? {
      U64Digits(e.size.value);
    }
  }

  lemma EntriesAtMost(entries: seq<TreeEntry>)
    requires |entries| <= WORKSPACE_TREE_ENTRY_LIMIT
    requires forall i :: 0 <= i < |entries| ==> |entries[i].name| <= NAME_LIMIT
    ensures |EntriesText(entries)| <= 7_935_002
  {
    var items := seq(|entries|, i requires 0 <= i < |entries| => EntryText(entries[i]));
    forall i | 0 <= i < |items| ensures |items[i]| <= 1586 {
      EntryAtMost(entries[i]);
    }
    CommasAtMost(items, 1586);
    Scaled(1587, |items|, WORKSPACE_TREE_ENTRY_LIMIT);
  }

  lemma TreeAtMost(t: WorkspaceTree)
    requires WithinCaps(Tree(t))
    ensures |TreeText(t)| <= 7_935_002 + 24_578 + 42
  {
    StrAtMost(t.path, REF_LIMIT);
    EntriesAtMost(t.entries);
  }

  lemma NumbersAtMost(bytes: Bytes)
    requires |bytes| <= WORKSPACE_FILE_LIMIT
    ensures |NumbersText(bytes)| <= 4 * WORKSPACE_FILE_LIMIT + 2
  {
    var items := seq(|bytes|, i requires 0 <= i < |bytes| => Decimal(bytes[i] as int));
    forall i | 0 <= i < |items| ensures |items[i]| <= 3 {
      assert Pow10(3) == 1000;
      DecimalLength(bytes[i] as int, 3);
    }
    CommasAtMost(items, 3);
    Scaled(4, |items|, WORKSPACE_FILE_LIMIT);
  }

  lemma ReasonAtMost(r: FailureKind)
    ensures |ReasonName(r)| <= 15 && |LimitText(r)| <= 29
  {
    if r.TooLarge? {
      U64Digits(r.limit);
    }
  }

  lemma ResultAtMost(r: LinkResult)
    requires WithinCaps(r)
    ensures |ResultText(r)| + 60 <= Most(r)
  {
    match r
    case Done =>
    case Diff(d) => DiffAtMost(d);
    case File(bytes) => NumbersAtMost(bytes);
    case Tree(t) => TreeAtMost(t);
    case Version(v) =>
      StrAtMost(v.head, OBJECT_ID_LIMIT);
      StrAtMost(v.fingerprint, OBJECT_ID_LIMIT);
    case Failed(reason, message) =>
      StrAtMost(message, |message|);
      ReasonAtMost(reason);
  }

  lemma ReplyAtMost(id: U64, result: string)
    ensures |ReplyText(id, result)| <= |result| + 54
  {
    U64Digits(id);
  }

  // Every reply within the caps is as small as documented, far under the
  // link's limit, and is sent as it is.
  lemma CappedRepliesFit(id: U64, r: LinkResult)
    requires WithinCaps(r)
    ensures |Text(Reply(id, r))| <= Most(r) < LINK_MAX_MESSAGE
    ensures FrameText(Reply(id, r)) == Ok(Text(Reply(id, r)))
  {
    ResultAtMost(r);
    ReplyAtMost(id, ResultText(r));
  }

  lemma TheRefusalIsCapped(bytes: U64)
    ensures WithinCaps(OverLimit(bytes))
  {
    U64Digits(bytes);
  }

  // --- What the daemon reads --------------------------------------------------------

  // The id of a reply, from its text alone.
  function IdOf(text: string): Option<nat> {
    if !(REPLY_HEAD <= text) then None
    else match SplitOnce(text[|REPLY_HEAD|..], ',')
      case Some((digits, _)) => ReadDecimal(digits)
      case None => None
  }

  lemma IdReadsBack(id: U64, result: string)
    ensures IdOf(ReplyText(id, result)) == Some(id)
  {
    var text := ReplyText(id, result);
    var rest := "\"result\":" + result + "}";
    assert text == REPLY_HEAD + (Decimal(id) + [','] + rest);
    assert text[|REPLY_HEAD|..] == Decimal(id) + [','] + rest;
    DecimalDigits(id);
    SplitOnceAt(Decimal(id), ',', rest);
    DecimalReadsBack(id);
  }

  // Every reply, of any size, is answered by a message the link takes and the
  // daemon can match to its request: the reply itself if and only if it is
  // within the limit, and the failure that says its size if not. A status over
  // the limit is an error.
  lemma EveryReplyIsAnswered(f: SidecarFrame)
    requires |Text(f)| < 0x1_0000_0000_0000_0000
    ensures FrameText(f).Err? <==> f.Status? && |Text(f)| > LINK_MAX_MESSAGE
    ensures FrameText(f).Ok? ==> |FrameText(f).value| <= LINK_MAX_MESSAGE
    ensures f.Reply? ==> FrameText(f).Ok? && IdOf(FrameText(f).value) == Some(f.id)
    ensures f.Reply? && |Text(f)| > LINK_MAX_MESSAGE ==>
      FrameText(f) == Ok(Text(Reply(f.id, OverLimit(|Text(f)|)))) && FrameText(f) != Ok(Text(f))
  {
    if f.Reply? {
      IdReadsBack(f.id, ResultText(f.result));
      if |Text(f)| > LINK_MAX_MESSAGE {
        var failed := OverLimit(|Text(f)|);
        TheRefusalIsCapped(|Text(f)|);
        CappedRepliesFit(f.id, failed);
        IdReadsBack(f.id, ResultText(failed));
      }
    }
  }

  // --- Reading a reply back ----------------------------------------------------------

  function Expect(s: string, p: string): Option<string> {
    StripPrefix(s, p)
  }

  lemma Expected(p: string, rest: string)
    ensures Expect(p + rest, p) == Some(rest)
  {
  }

  function ReadBytes(s: string): Option<(Bytes, string)> {
    if s == "" || s[0] != '"' then None
    else match ReadString(s[1..])
      case Some((text, rest)) =>
        if forall i :: 0 <= i < |text| ==> (text[i] as int) < 256 then Some((text, rest)) else None
      case None => None
  }

  lemma BytesReadBack(b: Bytes, rest: string)
    ensures ReadBytes(Str(b) + rest) == Some((b, rest))
  {
    var s := Str(b) + rest;
    assert s[1..] == Escape(b) + ['"'] + rest;
    StringReadsBack(b, rest);
  }

  function ReadBool(s: string): Option<(bool, string)> {
    if "true" <= s then Some((true, s[4..])) else if "false" <= s then Some((false, s[5..])) else None
  }

  lemma BoolReadsBack(b: bool, rest: string)
    ensures ReadBool(Bool(b) + rest) == Some((b, rest))
  {
    assert b ==> (Bool(b) + rest)[4..] == rest;
    assert !b ==> (Bool(b) + rest)[5..] == rest && (Bool(b) + rest)[0] == 'f';
  }

  predicate IsDigit(c: char) {
    '0' <= c <= '9'
  }

  function Digits(s: string): (string, string) {
    if s == "" || !IsDigit(s[0]) then ("", s)
    else
      var (digits, rest) := Digits(s[1..]);
      ([s[0]] + digits, rest)
  }

  lemma {:induction false} DigitsCut(digits: string, rest: string)
    requires forall i :: 0 <= i < |digits| ==> IsDigit(digits[i])
    requires rest == "" || !IsDigit(rest[0])
    ensures Digits(digits + rest) == (digits, rest)
  {
    if digits == "" {
      assert digits + rest == rest;
    } else {
      DigitsCut(digits[1..], rest);
      assert (digits + rest)[1..] == digits[1..] + rest;
      assert [digits[0]] + digits[1..] == digits;
    }
  }

  function ReadNumber(s: string): Option<(nat, string)> {
    var (digits, rest) := Digits(s);
    match ReadDecimal(digits) case Some(n) => Some((n, rest)) case None => None
  }

  lemma NumberReadsBack(n: nat, rest: string)
    requires rest == "" || !IsDigit(rest[0])
    ensures ReadNumber(Decimal(n) + rest) == Some((n, rest))
  {
    DecimalDigits(n);
    DigitsCut(Decimal(n), rest);
    DecimalReadsBack(n);
  }

  // A name in quotes of which the first has been read.
  lemma NameReads(name: string, rest: string)
    requires '"' !in name
    ensures SplitOnce(name + "\"" + rest, '"') == Some((name, rest))
  {
    SplitOnceAt(name, '"', rest);
  }

  // What can follow an item of a list.
  predicate Stops(s: string) {
    s != "" && (s[0] == ',' || s[0] == ']')
  }

  function ReadItems<T>(read: string -> Option<(T, string)>, s: string): Option<(seq<T>, string)>
    decreases |s|
  {
    match read(s)
    case None => None
    case Some((x, rest)) =>
      if |rest| >= |s| || !Stops(rest) then None
      else if rest[0] == ']' then Some(([x], rest[1..]))
      else match ReadItems(read, rest[1..])
        case Some((more, after)) => Some(([x] + more, after))
        case None => None
  }

  function ReadList<T>(read: string -> Option<(T, string)>, s: string): Option<(seq<T>, string)> {
    if s == "" || s[0] != '[' then None
    else if |s| > 1 && s[1] == ']' then Some(([], s[2..]))
    else ReadItems(read, s[1..])
  }

  ghost predicate ItemReads<T(!new)>(read: string -> Option<(T, string)>, item: string, x: T) {
    item != "" && item[0] != ']' && forall rest :: Stops(rest) ==> read(item + rest) == Some((x, rest))
  }

  lemma {:induction false} CommasFromTheFront(items: seq<string>)
    requires |items| > 1
    ensures Commas(items) == items[0] + ("," + Commas(items[1..]))
  {
    var n := |items| - 1;
    var front, last := items[..n], items[n];
    if n == 1 {
      assert front == [items[0]] && items[1..] == [last];
    } else {
      CommasFromTheFront(front);
      assert front[1..] == items[1..][..n - 1];
      Assoc(items[0], "," + Commas(front[1..]), "," + last);
      Assoc(",", Commas(front[1..]), "," + last);
      assert Commas(front) + "," + last == Commas(front) + ("," + last);
      assert Commas(front[1..]) + "," + last == Commas(front[1..]) + ("," + last);
    }
  }

  lemma {:induction false} ItemsReadBack<T(!new)>(read: string -> Option<(T, string)>, items: seq<string>, xs: seq<T>,
                                                  rest: string)
    requires |items| == |xs| > 0 && forall i :: 0 <= i < |xs| ==> ItemReads(read, items[i], xs[i])
    ensures ReadItems(read, Commas(items) + "]" + rest) == Some((xs, rest))
    decreases |xs|
  {
    var s := Commas(items) + "]" + rest;
    assert ItemReads(read, items[0], xs[0]);
    if |xs| == 1 {
      assert s == items[0] + ("]" + rest);
      assert ("]" + rest)[1..] == rest;
      assert xs == [xs[0]];
    } else {
      var tail := Commas(items[1..]) + "]" + rest;
      CommasFromTheFront(items);
      assert s == items[0] + ("," + tail);
      assert ("," + tail)[1..] == tail;
      forall i | 0 <= i < |xs| - 1 ensures ItemReads(read, items[1..][i], xs[1..][i]) {
        assert ItemReads(read, items[i + 1], xs[i + 1]);
      }
      ItemsReadBack(read, items[1..], xs[1..], rest);
      assert xs == [xs[0]] + xs[1..];
    }
  }

  // A list is read back item by item, whatever follows it.
  lemma ListReadsBack<T(!new)>(read: string -> Option<(T, string)>, items: seq<string>, xs: seq<T>, rest: string)
    requires |items| == |xs| && forall i :: 0 <= i < |xs| ==> ItemReads(read, items[i], xs[i])
    ensures ReadList(read, List(items) + rest) == Some((xs, rest))
  {
    var s := List(items) + rest;
    if items == [] {
      assert s == "[" + "]" + rest;
      assert s[2..] == rest;
    } else {
      ItemsReadBack(read, items, xs, rest);
      assert s[1..] == Commas(items) + "]" + rest;
      assert ItemReads(read, items[0], xs[0]);
      CommasStart(items);
      assert s[1] == Commas(items)[0];
    }
  }

  lemma CommasStart(items: seq<string>)
    requires items != [] && items[0] != ""
    ensures Commas(items) != "" && Commas(items)[0] == items[0][0]
  {
    if |items| > 1 {
      CommasFromTheFront(items);
    }
  }

  datatype Number = Number(value: nat)

  function ReadItem(s: string): Option<(Number, string)> {
    match ReadNumber(s)
    case Some((n, rest)) => Some((Number(n), rest))
    case None => None
  }

  function ReadNumbers(s: string): Option<(Bytes, string)> {
    match ReadList(ReadItem, s)
    case None => None
    case Some((ns, rest)) =>
      if forall i :: 0 <= i < |ns| ==> ns[i].value < 256
      then Some((seq(|ns|, i requires 0 <= i < |ns| && ns[i].value < 256 => ns[i].value as char), rest))
      else None
  }

  lemma NumberItemReads(n: nat, item: string)
    requires item == Decimal(n)
    ensures ItemReads(ReadItem, item, Number(n))
  {
    DecimalDigits(n);
    assert '0' <= item[0] <= '9';
    forall rest | Stops(rest) ensures ReadItem(item + rest) == Some((Number(n), rest)) {
      NumberReadsBack(n, rest);
    }
  }

  lemma NumbersReadBack(bytes: Bytes, rest: string)
    ensures ReadNumbers(NumbersText(bytes) + rest) == Some((bytes, rest))
  {
    var items := seq(|bytes|, i requires 0 <= i < |bytes| => Decimal(bytes[i] as int));
    var ns := seq(|bytes|, i requires 0 <= i < |bytes| => Number(bytes[i] as int));
    forall i | 0 <= i < |bytes| ensures ItemReads(ReadItem, items[i], ns[i]) {
      NumberItemReads(bytes[i] as int, items[i]);
    }
    ListReadsBack(ReadItem, items, ns, rest);
    assert seq(|ns|, i requires 0 <= i < |ns| && ns[i].value < 256 => ns[i].value as char) == bytes;
  }

  // --- A tree's entry -----------------------------------------------------------------

  function KindOf(name: string): Option<EntryKind> {
    if name == "file" then Some(AFile)
    else if name == "dir" then Some(ADir)
    else if name == "symlink" then Some(ASymlink)
    else if name == "other" then Some(AnOther)
    else None
  }

  function ReadSize(s: string): Option<(Option<U64>, string)> {
    match Expect(s, ",\"size\":")
    case None => Some((None, s))
    case Some(t) =>
      match ReadNumber(t)
      case Some((n, rest)) => if n < 0x1_0000_0000_0000_0000 then Some((Some(n), rest)) else None
      case None => None
  }

  lemma SizeReadsBack(size: Option<U64>, rest: string)
    requires rest != "" && rest[0] == '}'
    ensures ReadSize(SizeText(size) + rest) == Some((size, rest))
  {
    if size.Some? {
      var p, d := ",\"size\":", Decimal(size.value);
      Assoc(p, d, rest);
      Expected(p, d + rest);
      NumberReadsBack(size.value, rest);
    } else {
      assert SizeText(size) + rest == rest;
      assert ",\"size\":"[0] == ',';
    }
  }

  function ReadEntry(s: string): Option<(TreeEntry, string)> {
    match Expect(s, "{\"name\":")
    case None => None
    case Some(s1) =>
      match ReadBytes(s1)
      case None => None
      case Some((name, s2)) =>
        match Expect(s2, ",\"kind\":\"")
        case None => None
        case Some(s3) =>
          match SplitOnce(s3, '"')
          case None => None
          case Some((kind, s4)) =>
            match (KindOf(kind), ReadSize(s4))
            case (Some(k), Some((size, s5))) =>
              (match Expect(s5, "}") case Some(rest) => Some((TreeEntry(name, k, size), rest)) case None => None)
            case _ => None
  }

  lemma KindReadsBack(k: EntryKind)
    ensures '"' !in KindName(k) && KindOf(KindName(k)) == Some(k)
  {
  }

  lemma EntryReadsBack(e: TreeEntry, rest: string)
    ensures ReadEntry(EntryText(e) + rest) == Some((e, rest))
  {
    var p, q := "{\"name\":", ",\"kind\":\"";
    var name, kind, size := Str(e.name), KindName(e.kind), SizeText(e.size);
    var s5 := "}" + rest;
    var s4 := size + s5;
    var s3 := kind + ("\"" + s4);
    var s2 := q + s3;
    var s1 := name + s2;
    Six(p, name, q, kind, "\"", size, "}", rest);
    assert EntryText(e) + rest == p + s1;
    Expected(p, s1);
    BytesReadBack(e.name, s2);
    Expected(q, s3);
    KindReadsBack(e.kind);
    NameReads(kind, s4);
    assert kind + "\"" + s4 == s3;
    SizeReadsBack(e.size, s5);
    Expected("}", rest);
  }

  lemma Six(a: string, b: string, c: string, d: string, e: string, f: string, g: string, h: string)
    ensures a + b + c + d + e + f + g + h == a + (b + (c + (d + (e + (f + (g + h))))))
  {
  }

  lemma EntriesReadBack(entries: seq<TreeEntry>, rest: string)
    ensures ReadList(ReadEntry, EntriesText(entries) + rest) == Some((entries, rest))
  {
    var items := seq(|entries|, i requires 0 <= i < |entries| => EntryText(entries[i]));
    forall i | 0 <= i < |entries| ensures ItemReads(ReadEntry, items[i], entries[i]) {
      forall after | Stops(after) ensures ReadEntry(items[i] + after) == Some((entries[i], after)) {
        EntryReadsBack(entries[i], after);
      }
      StartsWithBrace(entries[i]);
    }
    ListReadsBack(ReadEntry, items, entries, rest);
  }

  lemma StartsWithBrace(e: TreeEntry)
    ensures EntryText(e) != "" && EntryText(e)[0] == '{'
  {
    assert "{\"name\":"[0] == '{';
  }

  // --- A diff's file --------------------------------------------------------------------

  function StatusOf(name: string): Option<FileStatus> {
    if name == "added" then Some(Added)
    else if name == "modified" then Some(Modified)
    else if name == "deleted" then Some(Deleted)
    else if name == "renamed" then Some(Renamed)
    else if name == "copied" then Some(Copied)
    else if name == "typechange" then Some(Typechange)
    else None
  }

  lemma StatusReadsBack(s: FileStatus)
    ensures '"' !in StatusName(s) && StatusOf(StatusName(s)) == Some(s)
  {
  }

  function ReadOldPath(s: string): Option<(Option<Bytes>, string)> {
    match Expect(s, "null")
    case Some(rest) => Some((None, rest))
    case None => match ReadBytes(s) case Some((p, rest)) => Some((Some(p), rest)) case None => None
  }

  lemma OldPathReadsBack(p: Option<Bytes>, rest: string)
    ensures ReadOldPath(OldPathText(p) + rest) == Some((p, rest))
  {
    if p.Some? {
      BytesReadBack(p.value, rest);
      assert "null"[0] == 'n' && (Str(p.value) + rest)[0] == '"';
    } else {
      Expected("null", rest);
    }
  }

  // A file's members after its path, and after its status.
  function ReadFile(s: string): Option<(FileDiff, string)> {
    match Expect(s, "{\"path\":")
    case None => None
    case Some(s1) =>
      match ReadBytes(s1)
      case None => None
      case Some((path, s2)) =>
        match Expect(s2, ",\"old_path\":")
        case None => None
        case Some(s3) =>
          match ReadOldPath(s3)
          case None => None
          case Some((oldPath, s4)) =>
            match Expect(s4, ",\"status\":\"")
            case None => None
            case Some(s5) =>
              match SplitOnce(s5, '"')
              case None => None
              case Some((name, s6)) =>
                match (StatusOf(name), ReadFlags(s6))
                case (Some(status), Some((uncommitted, binary, patch, truncated, rest))) =>
                  Some((FileDiff(path, oldPath, status, uncommitted, binary, patch, truncated), rest))
                case _ => None
  }

  function ReadFlags(s: string): Option<(bool, bool, Bytes, bool, string)> {
    match Expect(s, ",\"uncommitted\":")
    case None => None
    case Some(s1) =>
      match ReadBool(s1)
      case None => None
      case Some((uncommitted, s2)) =>
        match Expect(s2, ",\"binary\":")
        case None => None
        case Some(s3) =>
          match ReadBool(s3)
          case None => None
          case Some((binary, s4)) =>
            match Expect(s4, ",\"patch\":")
            case None => None
            case Some(s5) =>
              match ReadBytes(s5)
              case None => None
              case Some((patch, s6)) =>
                match ReadTruncated(s6)
                case None => None
                case Some((truncated, rest)) => Some((uncommitted, binary, patch, truncated, rest))
  }

  function ReadTruncated(s: string): Option<(bool, string)> {
    match Expect(s, ",\"truncated\":")
    case None => None
    case Some(s1) =>
      match ReadBool(s1)
      case None => None
      case Some((truncated, s2)) =>
        match Expect(s2, "}") case Some(rest) => Some((truncated, rest)) case None => None
  }

  lemma TruncatedReadsBack(b: bool, rest: string)
    ensures ReadTruncated(TruncatedText(b) + rest) == Some((b, rest))
  {
    var p := ",\"truncated\":";
    Three(p, Bool(b), "}", rest);
    Expected(p, Bool(b) + ("}" + rest));
    BoolReadsBack(b, "}" + rest);
    Expected("}", rest);
  }

  lemma Three(a: string, b: string, c: string, d: string)
    ensures a + b + c + d == a + (b + (c + d))
  {
  }

  lemma FlagsReadBack(f: FileDiff, rest: string)
    ensures ReadFlags(FlagsText(f) + rest) == Some((f.uncommitted, f.binary, f.patch, f.truncated, rest))
  {
    var p, q, r := ",\"uncommitted\":", ",\"binary\":", ",\"patch\":";
    var s6 := TruncatedText(f.truncated) + rest;
    var s5 := Str(f.patch) + s6;
    var s4 := r + s5;
    var s3 := Bool(f.binary) + s4;
    var s2 := q + s3;
    var s1 := Bool(f.uncommitted) + s2;
    Six(p, Bool(f.uncommitted), q, Bool(f.binary), r, Str(f.patch), TruncatedText(f.truncated), rest);
    assert FlagsText(f) + rest == p + s1;
    Expected(p, s1);
    BoolReadsBack(f.uncommitted, s2);
    Expected(q, s3);
    BoolReadsBack(f.binary, s4);
    Expected(r, s5);
    BytesReadBack(f.patch, s6);
    TruncatedReadsBack(f.truncated, rest);
  }

  lemma FileReadsBack(f: FileDiff, rest: string)
    ensures ReadFile(FileText(f) + rest) == Some((f, rest))
  {
    var p, q, r := "{\"path\":", ",\"old_path\":", ",\"status\":\"";
    var s6 := FlagsText(f) + rest;
    var s5 := StatusName(f.status) + ("\"" + s6);
    var s4 := r + s5;
    var s3 := OldPathText(f.oldPath) + s4;
    var s2 := q + s3;
    var s1 := Str(f.path) + s2;
    Seven(p, Str(f.path), q, OldPathText(f.oldPath), r, StatusName(f.status), "\"", FlagsText(f), rest);
    assert FileText(f) + rest == p + s1;
    Expected(p, s1);
    BytesReadBack(f.path, s2);
    Expected(q, s3);
    OldPathReadsBack(f.oldPath, s4);
    Expected(r, s5);
    StatusReadsBack(f.status);
    NameReads(StatusName(f.status), s6);
    assert StatusName(f.status) + "\"" + s6 == s5;
    FlagsReadBack(f, rest);
  }

  lemma Seven(a: string, b: string, c: string, d: string, e: string, f: string, g: string, h: string, i: string)
    ensures a + b + c + d + e + f + g + h + i == a + (b + (c + (d + (e + (f + (g + (h + i)))))))
  {
  }

  lemma FileStartsWithBrace(f: FileDiff)
    ensures FileText(f) != "" && FileText(f)[0] == '{'
  {
    assert "{\"path\":"[0] == '{';
  }

  lemma FilesReadBack(files: seq<FileDiff>, rest: string)
    ensures ReadList(ReadFile, FilesText(files) + rest) == Some((files, rest))
  {
    var items := seq(|files|, i requires 0 <= i < |files| => FileText(files[i]));
    forall i | 0 <= i < |files| ensures ItemReads(ReadFile, items[i], files[i]) {
      forall after | Stops(after) ensures ReadFile(items[i] + after) == Some((files[i], after)) {
        FileReadsBack(files[i], after);
      }
      FileStartsWithBrace(files[i]);
    }
    ListReadsBack(ReadFile, items, files, rest);
  }

  // --- The results -----------------------------------------------------------------------

  // A member whose value is a text: its name, as `p`, and then the text.
  function ReadMember(p: string, s: string): Option<(Bytes, string)> {
    match Expect(s, p)
    case None => None
    case Some(value) => ReadBytes(value)
  }

  lemma MemberReadsBack(p: string, b: Bytes, rest: string)
    ensures ReadMember(p, p + (Str(b) + rest)) == Some((b, rest))
  {
    Expected(p, Str(b) + rest);
    BytesReadBack(b, rest);
  }

  function ReadDiff(s: string): Option<(WorkspaceDiff, string)> {
    match ReadMember("{\"base_ref\":", s)
    case None => None
    case Some((baseRef, s1)) =>
      match ReadMember(",\"merge_base\":", s1)
      case None => None
      case Some((mergeBase, s2)) =>
        match ReadHeadAndFiles(s2)
        case None => None
        case Some((head, files, truncated, rest)) =>
          Some((WorkspaceDiff(baseRef, mergeBase, head, files, truncated), rest))
  }

  function ReadHeadAndFiles(s: string): Option<(Bytes, seq<FileDiff>, bool, string)> {
    match ReadMember(",\"head\":", s)
    case None => None
    case Some((head, s1)) =>
      match Expect(s1, ",\"files\":")
      case None => None
      case Some(s2) =>
        match ReadList(ReadFile, s2)
        case None => None
        case Some((files, s3)) =>
          match ReadTruncated(s3) case Some((t, rest)) => Some((head, files, t, rest)) case None => None
  }

  lemma HeadAndFilesReadBack(d: WorkspaceDiff, rest: string)
    ensures ReadHeadAndFiles(HeadAndFilesText(d) + rest) == Some((d.head, d.files, d.truncated, rest))
  {
    var p, q := ",\"head\":", ",\"files\":";
    var s4 := TruncatedText(d.truncated) + rest;
    var s3 := FilesText(d.files) + s4;
    var s2 := q + s3;
    assert HeadAndFilesText(d) + rest == p + (Str(d.head) + s2) by {
      Four(p, Str(d.head), q, FilesText(d.files), TruncatedText(d.truncated), rest);
    }
    MemberReadsBack(p, d.head, s2);
    Expected(q, s3);
    FilesReadBack(d.files, s4);
    TruncatedReadsBack(d.truncated, rest);
  }

  lemma Four(a: string, b: string, c: string, d: string, e: string, f: string)
    ensures a + b + c + d + e + f == a + (b + (c + (d + (e + f))))
  {
  }

  lemma DiffReadsBack(d: WorkspaceDiff, rest: string)
    ensures ReadDiff(DiffText(d) + rest) == Some((d, rest))
  {
    var p, q := "{\"base_ref\":", ",\"merge_base\":";
    var s2 := HeadAndFilesText(d) + rest;
    var s1 := q + (Str(d.mergeBase) + s2);
    assert DiffText(d) + rest == p + (Str(d.baseRef) + s1) by {
      Four(p, Str(d.baseRef), q, Str(d.mergeBase), HeadAndFilesText(d), rest);
    }
    MemberReadsBack(p, d.baseRef, s1);
    MemberReadsBack(q, d.mergeBase, s2);
    HeadAndFilesReadBack(d, rest);
  }

  function ReadTree(s: string): Option<(WorkspaceTree, string)> {
    match ReadMember("{\"path\":", s)
    case None => None
    case Some((path, s1)) =>
      match Expect(s1, ",\"entries\":")
      case None => None
      case Some(s2) =>
        match ReadList(ReadEntry, s2)
        case None => None
        case Some((entries, s3)) =>
          match ReadTruncated(s3) case Some((t, rest)) => Some((WorkspaceTree(path, entries, t), rest)) case None => None
  }

  lemma TreeReadsBack(t: WorkspaceTree, rest: string)
    ensures ReadTree(TreeText(t) + rest) == Some((t, rest))
  {
    var p, q := "{\"path\":", ",\"entries\":";
    var s4 := TruncatedText(t.truncated) + rest;
    var s3 := EntriesText(t.entries) + s4;
    var s2 := q + s3;
    assert TreeText(t) + rest == p + (Str(t.path) + s2) by {
      Four(p, Str(t.path), q, EntriesText(t.entries), TruncatedText(t.truncated), rest);
    }
    MemberReadsBack(p, t.path, s2);
    Expected(q, s3);
    EntriesReadBack(t.entries, s4);
    TruncatedReadsBack(t.truncated, rest);
  }

  function ReadVersion(s: string): Option<(WorkspaceVersion, string)> {
    match Expect(s, "{\"head\":")
    case None => None
    case Some(s1) =>
      match ReadBytes(s1)
      case None => None
      case Some((head, s2)) =>
        match Expect(s2, ",\"fingerprint\":")
        case None => None
        case Some(s3) =>
          match ReadBytes(s3)
          case None => None
          case Some((fingerprint, s4)) =>
            match Expect(s4, "}") case Some(rest) => Some((WorkspaceVersion(head, fingerprint), rest)) case None => None
  }

  lemma VersionReadsBack(v: WorkspaceVersion, rest: string)
    ensures ReadVersion(VersionText(v) + rest) == Some((v, rest))
  {
    var p, q := "{\"head\":", ",\"fingerprint\":";
    var s4 := "}" + rest;
    var s3 := Str(v.fingerprint) + s4;
    var s2 := q + s3;
    var s1 := Str(v.head) + s2;
    assert VersionText(v) + rest == p + s1 by {
      Four(p, Str(v.head), q, Str(v.fingerprint), "}", rest);
    }
    Expected(p, s1);
    BytesReadBack(v.head, s2);
    Expected(q, s3);
    BytesReadBack(v.fingerprint, s4);
    Expected("}", rest);
  }

  function ReasonOf(name: string, limit: Option<U64>): Option<FailureKind> {
    if name == "too_large" then if limit.Some? then Some(TooLarge(limit.value)) else None
    else if limit.Some? then None
    else if name == "missing" then Some(Missing)
    else if name == "no_such_path" then Some(NoSuchPath)
    else if name == "invalid_path" then Some(InvalidPath)
    else if name == "not_a_file" then Some(NotAFile)
    else if name == "not_a_directory" then Some(NotADirectory)
    else if name == "tool" then Some(Tool)
    else if name == "filter" then Some(Filter)
    else if name == "io" then Some(Io)
    else if name == "runner" then Some(Runner)
    else None
  }

  function LimitOf(r: FailureKind): Option<U64> {
    if r.TooLarge? then Some(r.limit) else None
  }

  lemma ReasonReadsBack(r: FailureKind)
    ensures '"' !in ReasonName(r) && ReasonOf(ReasonName(r), LimitOf(r)) == Some(r)
  {
  }

  function ReadLimit(s: string): Option<(Option<U64>, string)> {
    match Expect(s, ",\"limit\":")
    case None => Some((None, s))
    case Some(t) =>
      match ReadNumber(t)
      case Some((n, rest)) => if n < 0x1_0000_0000_0000_0000 then Some((Some(n), rest)) else None
      case None => None
  }

  lemma LimitReadsBack(r: FailureKind, rest: string)
    ensures ReadLimit(LimitText(r) + (",\"message\":" + rest)) == Some((LimitOf(r), ",\"message\":" + rest))
  {
    var p, q := ",\"limit\":", ",\"message\":";
    if r.TooLarge? {
      var d := Decimal(r.limit);
      Assoc(p, d, q + rest);
      Expected(p, d + (q + rest));
      assert (q + rest)[0] == ',';
      NumberReadsBack(r.limit, q + rest);
    } else {
      assert LimitText(r) + (q + rest) == q + rest;
      assert p[2] == 'l' && (q + rest)[2] == 'm';
    }
  }

  function ReadFailure(s: string): Option<(FailureKind, Bytes, string)> {
    match Expect(s, "{\"reason\":\"")
    case None => None
    case Some(s1) =>
      match SplitOnce(s1, '"')
      case None => None
      case Some((name, s2)) =>
        match ReadLimit(s2)
        case None => None
        case Some((limit, s3)) =>
          match Expect(s3, ",\"message\":")
          case None => None
          case Some(s4) =>
            match (ReasonOf(name, limit), ReadBytes(s4))
            case (Some(reason), Some((message, s5))) =>
              (match Expect(s5, "}") case Some(rest) => Some((reason, message, rest)) case None => None)
            case _ => None
  }

  lemma FailureReadsBack(reason: FailureKind, message: Bytes, rest: string)
    ensures ReadFailure(FailureText(reason, message) + rest) == Some((reason, message, rest))
  {
    var p, q := "{\"reason\":\"", ",\"message\":";
    var s5 := "}" + rest;
    var s4 := Str(message) + s5;
    var s3 := q + s4;
    var s2 := LimitText(reason) + s3;
    var s1 := ReasonName(reason) + ("\"" + s2);
    Six(p, ReasonName(reason), "\"", LimitText(reason), q, Str(message), "}", rest);
    assert FailureText(reason, message) + rest == p + s1;
    Expected(p, s1);
    ReasonReadsBack(reason);
    NameReads(ReasonName(reason), s2);
    assert ReasonName(reason) + "\"" + s2 == s1;
    LimitReadsBack(reason, s4);
    Expected(q, s4);
    BytesReadBack(message, s5);
    Expected("}", rest);
  }

  datatype Kind = OfOk | OfDiff | OfFile | OfTree | OfVersion | OfFailure

  function ResultKind(name: string): Option<Kind> {
    if name == "ok" then Some(OfOk)
    else if name == "diff" then Some(OfDiff)
    else if name == "file" then Some(OfFile)
    else if name == "tree" then Some(OfTree)
    else if name == "version" then Some(OfVersion)
    else if name == "failed" then Some(OfFailure)
    else None
  }

  // What follows an object's kind.
  function ReadBody(kind: Kind, s: string): Option<(LinkResult, string)> {
    match kind
    case OfOk => Some((Done, s))
    case OfDiff =>
      (match Expect(s, ",\"diff\":")
      case None => None
      case Some(t) => match ReadDiff(t) case Some((d, rest)) => Some((Diff(d), rest)) case None => None)
    case OfFile =>
      (match Expect(s, ",\"bytes\":")
      case None => None
      case Some(t) => match ReadNumbers(t) case Some((b, rest)) => Some((File(b), rest)) case None => None)
    case OfTree =>
      (match Expect(s, ",\"tree\":")
      case None => None
      case Some(t) => match ReadTree(t) case Some((tree, rest)) => Some((Tree(tree), rest)) case None => None)
    case OfVersion =>
      (match Expect(s, ",\"version\":")
      case None => None
      case Some(t) => match ReadVersion(t) case Some((v, rest)) => Some((Version(v), rest)) case None => None)
    case OfFailure =>
      (match Expect(s, ",\"failure\":")
      case None => None
      case Some(t) => match ReadFailure(t) case Some((r, m, rest)) => Some((Failed(r, m), rest)) case None => None)
  }

  function KindOfResult(r: LinkResult): Kind {
    match r
    case Done => OfOk
    case Diff(_) => OfDiff
    case File(_) => OfFile
    case Tree(_) => OfTree
    case Version(_) => OfVersion
    case Failed(_, _) => OfFailure
  }

  lemma MemberReads(p: string, text: string, rest: string)
    ensures Expect(p + text + rest, p) == Some(text + rest)
  {
    Assoc(p, text, rest);
    Expected(p, text + rest);
  }

  lemma DiffBody(d: WorkspaceDiff, text: string, rest: string)
    requires ReadDiff(text + rest) == Some((d, rest))
    ensures ReadBody(OfDiff, ",\"diff\":" + text + rest) == Some((Diff(d), rest))
  {
    MemberReads(",\"diff\":", text, rest);
  }

  lemma FileBody(b: Bytes, text: string, rest: string)
    requires ReadNumbers(text + rest) == Some((b, rest))
    ensures ReadBody(OfFile, ",\"bytes\":" + text + rest) == Some((File(b), rest))
  {
    MemberReads(",\"bytes\":", text, rest);
  }

  lemma TreeBody(t: WorkspaceTree, text: string, rest: string)
    requires ReadTree(text + rest) == Some((t, rest))
    ensures ReadBody(OfTree, ",\"tree\":" + text + rest) == Some((Tree(t), rest))
  {
    MemberReads(",\"tree\":", text, rest);
  }

  lemma VersionBody(v: WorkspaceVersion, text: string, rest: string)
    requires ReadVersion(text + rest) == Some((v, rest))
    ensures ReadBody(OfVersion, ",\"version\":" + text + rest) == Some((Version(v), rest))
  {
    MemberReads(",\"version\":", text, rest);
  }

  lemma FailureBody(r: FailureKind, m: Bytes, text: string, rest: string)
    requires ReadFailure(text + rest) == Some((r, m, rest))
    ensures ReadBody(OfFailure, ",\"failure\":" + text + rest) == Some((Failed(r, m), rest))
  {
    MemberReads(",\"failure\":", text, rest);
  }

  lemma BodyReadsBack(r: LinkResult, rest: string)
    ensures ReadBody(KindOfResult(r), KindAndBody(r).1 + rest) == Some((r, rest))
  {
    match r
    case Done => assert "" + rest == rest;
    case Diff(diff) =>
      DiffReadsBack(diff, rest);
      DiffBody(diff, DiffText(diff), rest);
    case File(bytes) =>
      NumbersReadBack(bytes, rest);
      FileBody(bytes, NumbersText(bytes), rest);
    case Tree(tree) =>
      TreeReadsBack(tree, rest);
      TreeBody(tree, TreeText(tree), rest);
    case Version(version) =>
      VersionReadsBack(version, rest);
      VersionBody(version, VersionText(version), rest);
    case Failed(reason, message) =>
      FailureReadsBack(reason, message, rest);
      FailureBody(reason, message, FailureText(reason, message), rest);
  }

  lemma KindIsAName(r: LinkResult)
    ensures '"' !in KindAndBody(r).0 && ResultKind(KindAndBody(r).0) == Some(KindOfResult(r))
  {
  }

  // A result's kind, and what follows it.
  function ReadKind(head: string, s: string): Option<(Kind, string)> {
    match Expect(s, head)
    case None => None
    case Some(s1) =>
      match SplitOnce(s1, '"')
      case None => None
      case Some((name, rest)) => match ResultKind(name) case Some(kind) => Some((kind, rest)) case None => None
  }

  lemma ResultKindReadsBack(head: string, r: LinkResult, rest: string)
    ensures ReadKind(head, head + (KindAndBody(r).0 + ("\"" + rest))) == Some((KindOfResult(r), rest))
  {
    var name := KindAndBody(r).0;
    Expected(head, name + ("\"" + rest));
    KindIsAName(r);
    NameReads(name, rest);
    assert name + "\"" + rest == name + ("\"" + rest);
  }

  function ReadResult(s: string): Option<(LinkResult, string)> {
    match ReadKind("{\"kind\":\"", s)
    case None => None
    case Some((kind, s1)) =>
      match ReadBody(kind, s1)
      case None => None
      case Some((r, s2)) => match Expect(s2, "}") case Some(rest) => Some((r, rest)) case None => None
  }

  lemma ResultReadsBack(r: LinkResult, rest: string)
    ensures ReadResult(ResultText(r) + rest) == Some((r, rest))
  {
    var head := "{\"kind\":\"";
    var (name, body) := KindAndBody(r);
    var s2 := "}" + rest;
    assert ResultText(r) == Tagged(name, body);
    Four(head, name, "\"", body, "}", rest);
    ResultKindReadsBack(head, r, body + s2);
    BodyReadsBack(r, s2);
    Expected("}", rest);
  }

  // The daemon's reading of a reply.
  function ReadReply(text: string): Option<(nat, LinkResult)> {
    match Expect(text, REPLY_HEAD)
    case None => None
    case Some(s1) =>
      match ReadNumber(s1)
      case None => None
      case Some((id, s2)) =>
        match Expect(s2, ",\"result\":")
        case None => None
        case Some(s3) =>
          match ReadResult(s3)
          case Some((result, rest)) => if rest == "}" then Some((id, result)) else None
          case None => None
  }

  // Every reply is read back whole: its id and, byte for byte and entry for
  // entry, its result.
  lemma RepliesReadBack(id: U64, r: LinkResult)
    ensures ReadReply(Text(Reply(id, r))) == Some((id, r))
  {
    var q := ",\"result\":";
    var s3 := ResultText(r) + "}";
    var s2 := q + s3;
    Three(REPLY_HEAD, Decimal(id), q, s3);
    assert Text(Reply(id, r)) == REPLY_HEAD + (Decimal(id) + s2) by {
      Four(REPLY_HEAD, Decimal(id), q, ResultText(r), "}", "");
      assert Text(Reply(id, r)) + "" == Text(Reply(id, r)) && "}" + "" == "}";
    }
    Expected(REPLY_HEAD, Decimal(id) + s2);
    assert s2[0] == ',';
    NumberReadsBack(id, s2);
    Expected(q, s3);
    ResultReadsBack(r, "}");
  }

  // So what the daemon reads of a reply within the limit is that reply, and of
  // one over it the failure, with the same id.
  lemma WhatTheDaemonReads(id: U64, r: LinkResult)
    ensures FrameText(Reply(id, r)).Ok?
    ensures ReadReply(FrameText(Reply(id, r)).value) == Some((id,
      if |Text(Reply(id, r))| <= LINK_MAX_MESSAGE then r else OverLimit(|Text(Reply(id, r))|)))
  {
    RepliesReadBack(id, r);
    RepliesReadBack(id, OverLimit(|Text(Reply(id, r))|));
  }
}
