/** Octal escapes of mount tables: the escaper, the two decoders, and the mountinfo parser. */
module MountInfo {
  import opened Decimals
  import opened Text
  import opened Wrappers

  // ---- Escapes ----

  function EscapeChar(c: char): string {
    if c == ' ' then "\\040"
    else if c == '\t' then "\\011"
    else if c == '\n' then "\\012"
    else if c == '\\' then "\\134"
    else [c]
  }

  function FstabEscape(value: string): string {
    if value == [] then [] else EscapeChar(value[0]) + FstabEscape(value[1..])
  }

  predicate IsOctal(c: char) {
    '0' <= c <= '7'
  }

  function OctalValue(a: char, b: char, c: char): nat
    requires IsOctal(a) && IsOctal(b) && IsOctal(c)
  {
    64 * DigitValue(a) + 8 * DigitValue(b) + DigitValue(c)
  }

  // `u8::from_str_radix(_, 8)` on three characters; the standard library takes a leading '+'.
  function U8FromOctal(a: char, b: char, c: char): (r: Option<nat>)
    ensures r.Some? ==> r.value <= 255
  {
    if a == '+' && IsOctal(b) && IsOctal(c) then Some(OctalValue('0', b, c))
    else if IsOctal(a) && IsOctal(b) && IsOctal(c) && OctalValue(a, b, c) <= 255 then Some(OctalValue(a, b, c))
    else None
  }

  // The node plugin's decoding of the three characters behind a backslash.
  function NodeDecode(a: char, b: char, c: char): string {
    if IsDigit(a) && IsDigit(b) && IsDigit(c) then
      match U8FromOctal(a, b, c)
      case Some(code) => [code as char]
      case None => "?"
    else ['\\', a, b, c]
  }

  function NodeUnescape(value: string): string {
    if value == [] then []
    else if value[0] != '\\' then [value[0]] + NodeUnescape(value[1..])
    else if |value| < 4 then "\\"
    else NodeDecode(value[1], value[2], value[3]) + NodeUnescape(value[4..])
  }

  function HostDecode(a: char, b: char, c: char): string {
    match U8FromOctal(a, b, c)
    case Some(code) => [code as char]
    case None => ['\\', a, b, c]
  }

  function HostUnescape(value: string): string {
    if value == [] then []
    else if value[0] != '\\' then [value[0]] + HostUnescape(value[1..])
    else if |value| < 4 then value
    else HostDecode(value[1], value[2], value[3]) + HostUnescape(value[4..])
  }

  method UnescapeMountField(value: string) returns (output: string)
    ensures output == NodeUnescape(value)
  {
    hide NodeDecode;
    output := "";
    var i := 0;
    while i < |value|
      invariant i <= |value|
      invariant output + NodeUnescape(value[i..]) == NodeUnescape(value)
    {
      if value[i] == '\\' {
        if i + 3 < |value| {
          assert value[i..][4..] == value[i + 4..];
          output := output + NodeDecode(value[i + 1], value[i + 2], value[i + 3]);
          i := i + 4;
        } else {
          output := output + "\\";
          i := |value|;
        }
      } else {
        assert value[i..][1..] == value[i + 1..];
        output := output + [value[i]];
        i := i + 1;
      }
    }
  }

  method MountinfoUnescape(value: string) returns (output: string)
    ensures output == HostUnescape(value)
  {
    hide HostDecode;
    output := "";
    var i := 0;
    while i < |value|
      invariant i <= |value|
      invariant output + HostUnescape(value[i..]) == HostUnescape(value)
    {
      if value[i] != '\\' {
        assert value[i..][1..] == value[i + 1..];
        output := output + [value[i]];
        i := i + 1;
      } else if i + 3 < |value| {
        assert value[i..][4..] == value[i + 4..];
        output := output + HostDecode(value[i + 1], value[i + 2], value[i + 3]);
        i := i + 4;
      } else {
        output := output + value[i..];
        i := |value|;
      }
    }
  }

  lemma UnescapeEscapedChar(c: char, rest: string)
    ensures NodeUnescape(EscapeChar(c) + rest) == [c] + NodeUnescape(rest)
    ensures HostUnescape(EscapeChar(c) + rest) == [c] + HostUnescape(rest)
  {
    var text := EscapeChar(c) + rest;
    if EscapeChar(c) == [c] {
      assert text[1..] == rest;
    } else {
      assert text[4..] == rest;
      assert OctalValue('0', '4', '0') == 32 && OctalValue('0', '1', '1') == 9;
      assert OctalValue('0', '1', '2') == 10 && OctalValue('1', '3', '4') == 92;
    }
  }

  /** What the host writes into a guest's fstab, the node plugin and the host agent read back unchanged. */
  lemma {:induction false} EscapeRoundTrip(value: string)
    ensures NodeUnescape(FstabEscape(value)) == value
    ensures HostUnescape(FstabEscape(value)) == value
  {
    if value != [] {
      UnescapeEscapedChar(value[0], FstabEscape(value[1..]));
      EscapeRoundTrip(value[1..]);
    }
  }

  // Every escape both decoders read the same way: three octal digits up to 377, or three characters
  // that are neither all digits nor a '+' with two octal digits, or a lone backslash at the end.
  predicate CleanEscapes(value: string) {
    if value == [] then true
    else if value[0] != '\\' then CleanEscapes(value[1..])
    else if |value| < 4 then |value| == 1
    else
      && (IsDigit(value[1]) && IsDigit(value[2]) && IsDigit(value[3]) <==>
          U8FromOctal(value[1], value[2], value[3]).Some?)
      && CleanEscapes(value[4..])
  }

  /** The two decoders of the program agree exactly on the clean texts. */
  lemma {:induction false} DecodersAgree(value: string)
    ensures NodeUnescape(value) == HostUnescape(value) <==> CleanEscapes(value)
  {
    if value == [] {
    } else if value[0] != '\\' {
      DecodersAgree(value[1..]);
      assert NodeUnescape(value)[1..] == NodeUnescape(value[1..]);
      assert HostUnescape(value)[1..] == HostUnescape(value[1..]);
    } else if |value| >= 4 {
      DecodersAgree(value[4..]);
      var node, host := NodeDecode(value[1], value[2], value[3]), HostDecode(value[1], value[2], value[3]);
      if node == host {
        assert NodeUnescape(value)[|node|..] == NodeUnescape(value[4..]);
        assert HostUnescape(value)[|host|..] == HostUnescape(value[4..]);
      } else {
        assert node[0] != host[0];
        assert NodeUnescape(value)[0] == node[0] && HostUnescape(value)[0] == host[0];
      }
    }
  }

  // ---- Lines of /proc/self/mountinfo ----

  datatype MountInfoEntry = MountInfoEntry(
    mountId: nat,
    parentId: nat,
    root: string,
    mountPoint: string,
    filesystemType: string,
    source: string)

  datatype MountInfoParseError = MissingSeparator | MissingField(field: string) | InvalidInteger(field: string)

  // `str::split_whitespace`
  function SplitWhitespace(s: string): seq<string> {
    if s == [] then []
    else if IsWhitespace(s[0]) then SplitWhitespace(s[1..])
    else if |s| == 1 || IsWhitespace(s[1]) then [[s[0]]] + SplitWhitespace(s[1..])
    else
      var rest := SplitWhitespace(s[1..]);
      if rest == [] then [s] else [[s[0]] + rest[0]] + rest[1..]
  }

  const SEPARATOR := " - "

  function ParseInteger(fields: seq<string>, index: nat, field: string): Result<nat, MountInfoParseError> {
    if index >= |fields| then Err(MissingField(field))
    else match ParseU64(fields[index])
      case Some(n) => Ok(n)
      case None => Err(InvalidInteger(field))
  }

  function ParseFields(left: seq<string>, right: seq<string>): Result<MountInfoEntry, MountInfoParseError> {
    match ParseInteger(left, 0, "mount_id")
    case Err(e) => Err(e)
    case Ok(mountId) =>
      match ParseInteger(left, 1, "parent_id")
      case Err(e) => Err(e)
      case Ok(parentId) =>
        if |left| <= 3 then Err(MissingField("root"))
        else if |left| <= 4 then Err(MissingField("mount_point"))
        else if |right| <= 0 then Err(MissingField("filesystem_type"))
        else if |right| <= 1 then Err(MissingField("source"))
        else Ok(MountInfoEntry(mountId, parentId, NodeUnescape(left[3]), NodeUnescape(left[4]),
                               right[0], NodeUnescape(right[1])))
  }

  function ParseMountinfoLine(line: string): Result<MountInfoEntry, MountInfoParseError> {
    match Find(line, SEPARATOR)
    case None => Err(MissingSeparator)
    case Some(at) => ParseFields(SplitWhitespace(line[..at]), SplitWhitespace(line[at + 3..]))
  }

  /** A line as section 3.5 of the kernel's Documentation/filesystems/proc.rst lays it out. */
  datatype KernelMount = KernelMount(
    entry: MountInfoEntry,
    device: string,
    options: string,
    optionalFields: seq<string>,
    superOptions: string)

  function LeftFields(m: KernelMount): seq<string> {
    [Decimal(m.entry.mountId), Decimal(m.entry.parentId), m.device, FstabEscape(m.entry.root),
     FstabEscape(m.entry.mountPoint), m.options] + m.optionalFields
  }

  // The fields behind the first, each with its leading space, and what follows them.
  function SpacedFields(fields: seq<string>, rest: string): string {
    if fields == [] then rest else " " + (fields[0] + SpacedFields(fields[1..], rest))
  }

  function Line(fields: seq<string>, rest: string): string
    requires fields != []
  {
    fields[0] + SpacedFields(fields[1..], rest)
  }

  function RightFields(m: KernelMount): seq<string> {
    [m.entry.filesystemType, FstabEscape(m.entry.source), m.superOptions]
  }

  function PrintMountinfoLine(m: KernelMount): string {
    Line(LeftFields(m), SEPARATOR + Line(RightFields(m), ""))
  }

  predicate IsWord(s: string) {
    s != [] && forall i :: 0 <= i < |s| ==> !IsWhitespace(s[i])
  }

  // A path or source the kernel's escaping makes a single word.
  predicate IsEscapable(s: string) {
    s != [] && forall i :: 0 <= i < |s| ==> IsWhitespace(s[i]) ==> s[i] in " \t\n"
  }

  predicate IsPrintable(m: KernelMount) {
    && m.entry.mountId <= U64_MAX && m.entry.parentId <= U64_MAX
    && IsEscapable(m.entry.root) && IsEscapable(m.entry.mountPoint) && IsEscapable(m.entry.source)
    && IsWord(m.device) && IsWord(m.options) && IsWord(m.superOptions) && IsWord(m.entry.filesystemType)
    && (forall f :: f in m.optionalFields ==> IsWord(f))
    && m.device != "-" && m.entry.root != "-" && m.entry.mountPoint != "-" && m.options != "-"
    && (forall f :: f in m.optionalFields ==> f != "-")
  }

  lemma {:induction false} EscapedIsWord(s: string)
    requires IsEscapable(s)
    ensures IsWord(FstabEscape(s))
    ensures FstabEscape(s) == "-" ==> s == "-"
  {
    assert FstabEscape([]) == [];
    if |s| > 1 {
      EscapedIsWord(s[1..]);
    }
    var e := EscapeChar(s[0]);
    assert FstabEscape(s) == e + FstabEscape(s[1..]);
    assert forall i :: 0 <= i < |e| ==> !IsWhitespace(e[i]);
  }

  // ---- Words come back out of a spaced line ----

  lemma {:induction false} SplitWord(w: string, rest: string)
    requires IsWord(w)
    requires rest == [] || IsWhitespace(rest[0])
    ensures SplitWhitespace(w + rest) == [w] + SplitWhitespace(rest)
  {
    var s := w + rest;
    assert s[1..] == w[1..] + rest;
    if |w| == 1 {
      assert s[1..] == rest && [s[0]] == w;
      if rest != [] {
        assert IsWhitespace(s[1]);
      }
    } else {
      SplitWord(w[1..], rest);
      assert !IsWhitespace(s[1]);
      assert [s[0]] + w[1..] == w;
    }
  }

  lemma {:induction false} SplitSpacedFields(fields: seq<string>)
    requires forall f :: f in fields ==> IsWord(f)
    ensures SplitWhitespace(SpacedFields(fields, "")) == fields
  {
    if fields != [] {
      var tail := SpacedFields(fields[1..], "");
      assert SpacedFields(fields, "")[1..] == fields[0] + tail;
      SplitWord(fields[0], tail);
      SplitSpacedFields(fields[1..]);
    }
  }

  lemma SplitLine(fields: seq<string>)
    requires fields != [] && forall f :: f in fields ==> IsWord(f)
    ensures SplitWhitespace(Line(fields, "")) == fields
  {
    SplitWord(fields[0], SpacedFields(fields[1..], ""));
    SplitSpacedFields(fields[1..]);
  }

  lemma {:induction false} SpacedFieldsAppend(fields: seq<string>, rest: string)
    ensures SpacedFields(fields, rest) == SpacedFields(fields, "") + rest
  {
    if fields != [] {
      SpacedFieldsAppend(fields[1..], rest);
    }
  }

  lemma WordHasNoSpace(w: string)
    requires IsWord(w)
    ensures ' ' !in w
  {
    assert IsWhitespace(' ');
  }

  // The separator is not found inside a word.
  lemma {:induction false} FindSkipsWord(w: string, tail: string)
    requires ' ' !in w
    ensures Contains(tail, SEPARATOR) ==> Contains(w + tail, SEPARATOR)
    ensures Contains(tail, SEPARATOR) ==> Find(w + tail, SEPARATOR).value == |w| + Find(tail, SEPARATOR).value
  {
    if w == [] {
      assert w + tail == tail;
    } else {
      assert (w + tail)[1..] == w[1..] + tail;
      assert (w + tail)[0] != SEPARATOR[0];
      FindSkipsWord(w[1..], tail);
    }
  }

  lemma {:induction false} FindBehindFields(fields: seq<string>, right: string)
    requires forall f :: f in fields ==> IsWord(f) && f != "-"
    ensures var s := SpacedFields(fields, SEPARATOR + right);
            Contains(s, SEPARATOR) && Find(s, SEPARATOR).value == |SpacedFields(fields, "")|
  {
    var s := SpacedFields(fields, SEPARATOR + right);
    if fields == [] {
      assert SEPARATOR <= s;
    } else {
      var w, tail := fields[0], SpacedFields(fields[1..], SEPARATOR + right);
      FindBehindFields(fields[1..], right);
      WordHasNoSpace(w);
      FindSkipsWord(w, tail);
      assert s == " " + (w + tail);
      assert s[1..] == w + tail;
      assert tail[0] == ' ' && IsWord(w);
      assert !(SEPARATOR <= s) by {
        assert s[1] == w[0];
        assert |w| > 1 ==> s[2] == w[1];
        assert |w| == 1 ==> w == [w[0]];
      }
    }
  }

  lemma FindSeparator(line: string, fields: seq<string>, right: string)
    requires fields != [] && line == Line(fields, SEPARATOR + right)
    requires forall f :: f in fields ==> IsWord(f)
    requires forall f :: f in fields[1..] ==> f != "-"
    ensures Contains(line, SEPARATOR) && Find(line, SEPARATOR).value == |Line(fields, "")|
  {
    FindBehindFields(fields[1..], right);
    WordHasNoSpace(fields[0]);
    FindSkipsWord(fields[0], SpacedFields(fields[1..], SEPARATOR + right));
  }

  lemma ParseAtSeparator(line: string, left: string, right: string)
    requires line == left + SEPARATOR + right
    requires Contains(line, SEPARATOR) && Find(line, SEPARATOR).value == |left|
    ensures ParseMountinfoLine(line) == ParseFields(SplitWhitespace(left), SplitWhitespace(right))
  {
    assert line[..|left|] == left && line[|left| + 3..] == right;
  }

  lemma FieldsAreWords(m: KernelMount)
    requires IsPrintable(m)
    ensures forall f :: f in LeftFields(m) ==> IsWord(f)
    ensures forall f :: f in LeftFields(m)[1..] ==> f != "-"
  {
    EscapedIsWord(m.entry.root);
    EscapedIsWord(m.entry.mountPoint);
    var id, parent := Decimal(m.entry.mountId), Decimal(m.entry.parentId);
    assert forall c :: IsDigit(c) ==> !IsWhitespace(c) && c != '-';
    assert IsWord(id) && IsWord(parent) && parent[0] != '-';
    assert LeftFields(m)[1..] == [parent, m.device, FstabEscape(m.entry.root),
                                  FstabEscape(m.entry.mountPoint), m.options] + m.optionalFields;
  }

  lemma RightFieldsAreWords(m: KernelMount)
    requires IsPrintable(m)
    ensures forall f :: f in RightFields(m) ==> IsWord(f)
  {
    EscapedIsWord(m.entry.source);
  }

  lemma ParsePrintedFields(m: KernelMount)
    requires m.entry.mountId <= U64_MAX && m.entry.parentId <= U64_MAX
    ensures ParseFields(LeftFields(m), RightFields(m)) == Ok(m.entry)
  {
    ParseDecimal(m.entry.mountId);
    ParseDecimal(m.entry.parentId);
    EscapeRoundTrip(m.entry.root);
    EscapeRoundTrip(m.entry.mountPoint);
    EscapeRoundTrip(m.entry.source);
  }

  lemma PrintedLineParts(line: string, left: seq<string>, right: string)
    requires left != [] && line == Line(left, SEPARATOR + right)
    requires forall f :: f in left ==> IsWord(f)
    requires forall f :: f in left[1..] ==> f != "-"
    ensures ParseMountinfoLine(line) == ParseFields(left, SplitWhitespace(right))
  {
    FindSeparator(line, left, right);
    LineAppend(left, right);
    SplitLine(left);
    hide Line, Contains, ParseMountinfoLine, SplitWhitespace, ParseFields, IsWord;
    ParseAtSeparator(line, Line(left, ""), right);
  }

  lemma LineAppend(fields: seq<string>, right: string)
    requires fields != []
    ensures Line(fields, SEPARATOR + right) == Line(fields, "") + SEPARATOR + right
  {
    SpacedFieldsAppend(fields[1..], SEPARATOR + right);
  }

  /** The parser inverts the kernel's printer. */
  lemma ParsePrinted(m: KernelMount)
    requires IsPrintable(m)
    ensures ParseMountinfoLine(PrintMountinfoLine(m)) == Ok(m.entry)
  {
    FieldsAreWords(m);
    RightFieldsAreWords(m);
    ParsePrintedFields(m);
    hide ParseFields, SplitWhitespace, FstabEscape, IsWord, ParseMountinfoLine, Line;
    PrintedLineParts(PrintMountinfoLine(m), LeftFields(m), Line(RightFields(m), ""));
    SplitLine(RightFields(m));
  }

  // ---- The whole file ----

  // `str::lines` on a text whose lines end in '\n'.
  function Lines(input: string): seq<string> {
    match Find(input, "\n")
    case None => if input == [] then [] else [WithoutReturn(input)]
    case Some(at) => [WithoutReturn(input[..at])] + Lines(input[at + 1..])
  }

  function WithoutReturn(line: string): string {
    if line != [] && line[|line| - 1] == '\r' then line[..|line| - 1] else line
  }

  function ParseLines(lines: seq<string>): Result<seq<MountInfoEntry>, MountInfoParseError> {
    if lines == [] then Ok([])
    else if IsBlank(lines[0]) then ParseLines(lines[1..])
    else match ParseMountinfoLine(lines[0])
      case Err(e) => Err(e)
      case Ok(entry) =>
        match ParseLines(lines[1..])
        case Err(e) => Err(e)
        case Ok(entries) => Ok([entry] + entries)
  }

  function ParseMountinfo(input: string): Result<seq<MountInfoEntry>, MountInfoParseError> {
    ParseLines(Lines(input))
  }

  function PrintMountinfo(mounts: seq<KernelMount>): string {
    if mounts == [] then "" else PrintMountinfoLine(mounts[0]) + "\n" + PrintMountinfo(mounts[1..])
  }

  function Entries(mounts: seq<KernelMount>): (r: seq<MountInfoEntry>)
    ensures |r| == |mounts| && forall i :: 0 <= i < |r| ==> r[i] == mounts[i].entry
  {
    seq(|mounts|, i requires 0 <= i < |mounts| => mounts[i].entry)
  }

  lemma {:induction false} SpacedFieldsCharacters(fields: seq<string>, rest: string)
    requires forall f :: f in fields ==> IsWord(f)
    ensures forall c :: c in SpacedFields(fields, rest) ==> c == ' ' || !IsWhitespace(c) || c in rest
  {
    if fields != [] {
      SpacedFieldsCharacters(fields[1..], rest);
      assert IsWord(fields[0]);
    }
  }

  lemma PrintedLineCharacters(m: KernelMount)
    requires IsPrintable(m)
    ensures '\n' !in PrintMountinfoLine(m) && '\r' !in PrintMountinfoLine(m)
    ensures PrintMountinfoLine(m) != [] && !IsWhitespace(PrintMountinfoLine(m)[0])
  {
    FieldsAreWords(m);
    EscapedIsWord(m.entry.source);
    var left, right := LeftFields(m), RightFields(m);
    SpacedFieldsCharacters(right[1..], "");
    assert IsWord(right[0]);
    SpacedFieldsCharacters(left[1..], SEPARATOR + Line(right, ""));
    assert IsWord(left[0]);
  }

  lemma LinesCons(line: string, rest: string)
    requires '\n' !in line && '\r' !in line
    ensures Lines(line + "\n" + rest) == [line] + Lines(rest)
  {
    FindChar(line, '\n', rest);
    DropLine(line, rest);
  }

  lemma DropLine(line: string, rest: string)
    ensures (line + "\n" + rest)[..|line|] == line && (line + "\n" + rest)[|line| + 1..] == rest
  {
  }

  lemma ParseLinesCons(line: string, lines: seq<string>)
    requires line != [] && !IsWhitespace(line[0])
    ensures ParseLines([line] + lines) ==
            match ParseMountinfoLine(line)
            case Err(e) => Err(e)
            case Ok(entry) => (
              match ParseLines(lines)
              case Err(e) => Err(e)
              case Ok(entries) => Ok([entry] + entries))
  {
    TrimEndKeepsFirst(line);
    assert ([line] + lines)[1..] == lines;
  }

  lemma PrintedTableCons(m: KernelMount, mounts: seq<KernelMount>)
    requires IsPrintable(m)
    requires ParseMountinfo(PrintMountinfo(mounts)).Ok?
    ensures ParseMountinfo(PrintMountinfoLine(m) + "\n" + PrintMountinfo(mounts)) ==
            Ok([m.entry] + ParseMountinfo(PrintMountinfo(mounts)).value)
  {
    var line := PrintMountinfoLine(m);
    PrintedLineCharacters(m);
    ParsePrinted(m);
    hide PrintMountinfoLine, ParseMountinfoLine, Lines, ParseLines, IsPrintable, PrintMountinfo;
    LinesCons(line, PrintMountinfo(mounts));
    ParseLinesCons(line, Lines(PrintMountinfo(mounts)));
  }

  /** Reading the kernel's printout of a mount table gives back the table. */
  lemma {:induction false} ParsePrintedTable(mounts: seq<KernelMount>)
    requires forall m :: m in mounts ==> IsPrintable(m)
    ensures ParseMountinfo(PrintMountinfo(mounts)) == Ok(Entries(mounts))
  {
    if mounts == [] {
      assert Lines("") == [];
    } else {
      hide ParseMountinfo, PrintMountinfoLine, IsPrintable;
      ParsePrintedTable(mounts[1..]);
      PrintedTableCons(mounts[0], mounts[1..]);
      assert Entries(mounts) == [mounts[0].entry] + Entries(mounts[1..]);
    }
  }
}
