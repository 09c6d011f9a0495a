/** Libvirt domain XML: rendering, and recovering the hash marker from what libvirt reports. */
module DomainXml {
  import opened Wrappers
  import opened Decimals
  import opened Text
  import opened ContentHashing

  datatype VirtiofsExport = VirtiofsExport(socketPath: string, tag: string, queueSize: nat)

  datatype DomainSpec = DomainSpec(
    name: string,
    memoryMib: nat,
    vcpus: nat,
    machine: string,
    cpuMode: string,
    rootDiskPath: string,
    rootDiskFormat: string,
    seedDiskPath: Option<string>,
    bridge: string,
    macAddress: string,
    virtiofsExports: seq<VirtiofsExport>)

  const MARKER := "desired-domain-hash"

  function XmlEscape(value: string): string {
    ReplaceChar(
      ReplaceChar(
        ReplaceChar(
          ReplaceChar(
            ReplaceChar(value, '&', "&amp;"), '\'', "&apos;"), '"', "&quot;"), '<', "&lt;"), '>', "&gt;")
  }

  function RenderExports(exports: seq<VirtiofsExport>): string {
    if exports == [] then ""
    else
      var entry := exports[0];
      "    <filesystem type='mount'>\n      <driver type='virtiofs' queue='" + Decimal(entry.queueSize)
      + "'/>\n      <source socket='" + XmlEscape(entry.socketPath)
      + "'/>\n      <target dir='" + XmlEscape(entry.tag)
      + "'/>\n    </filesystem>\n"
      + RenderExports(exports[1..])
  }

  function RenderDevices(spec: DomainSpec): string {
    "    <disk type='file' device='disk'>\n      <driver name='qemu' type='" + XmlEscape(spec.rootDiskFormat)
    + "'/>\n      <source file='" + XmlEscape(spec.rootDiskPath)
    + "'/>\n      <target dev='vda' bus='virtio'/>\n    </disk>\n"
    + (match spec.seedDiskPath
       case None => ""
       case Some(seed) =>
         "    <disk type='file' device='cdrom'>\n      <driver name='qemu' type='raw'/>\n      <source file='"
         + XmlEscape(seed) + "'/>\n      <target dev='sda' bus='sata'/>\n      <readonly/>\n    </disk>\n")
    + "    <interface type='bridge'>\n      <mac address='" + XmlEscape(spec.macAddress)
    + "'/>\n      <source bridge='" + XmlEscape(spec.bridge)
    + "'/>\n      <model type='virtio'/>\n    </interface>\n"
    + "    <channel type='unix'>\n      <target type='virtio' name='org.qemu.guest_agent.0'/>\n    </channel>\n"
    + "    <console type='pty'/>\n"
    + RenderExports(spec.virtiofsExports)
  }

  // The part of the document behind the metadata.
  function RenderBody(spec: DomainSpec): string {
    "<memory unit='MiB'>" + Decimal(spec.memoryMib)
    + "</memory>\n  <vcpu placement='static'>" + Decimal(spec.vcpus)
    + "</vcpu>\n  <os>\n    <type arch='x86_64' machine='" + XmlEscape(spec.machine)
    + "'>hvm</type>\n  </os>\n  <features>\n    <acpi/>\n    <apic/>\n  </features>\n  <cpu mode='"
    + XmlEscape(spec.cpuMode)
    + "'/>\n  <memoryBacking>\n    <source type='memfd'/>\n    <access mode='shared'/>\n  </memoryBacking>\n"
    + "  <devices>\n" + RenderDevices(spec)
    + "  </devices>\n</domain>\n"
  }

  const NAME_OPEN := "<domain type='kvm'>\n  <name"
  const NAMESPACE := " xmlns:nas-csi='urn:nas-csi.dev:domain'"
  const MANAGED_OPEN := "metadata>\n    <nas-csi:managed"
  const MANAGED_CLOSE := ">true</nas-csi:managed>\n    <nas-csi"
  const METADATA_OPEN := MANAGED_OPEN + NAMESPACE + MANAGED_CLOSE

  const NAME_END := "/name"
  const INDENT := "\n  "
  // Between the name and the marker.
  const BEFORE_MARKER := NAME_END + ">" + (INDENT + "<" + METADATA_OPEN)
  const METADATA_CLOSE := ">\n  </metadata>"

  // From the marker's own attribute to the end of the document.
  function BehindMarker(hash: string, tail: string): string {
    NAMESPACE + ">" + (XmlEscape(hash) + "<" + ("/nas-csi:" + MARKER + METADATA_CLOSE + INDENT + tail))
  }

  function AfterName(hash: Option<string>, tail: string): string {
    match hash
    case None => NAME_END + ">" + INDENT + tail
    case Some(h) => BEFORE_MARKER + ":" + (MARKER + BehindMarker(h, tail))
  }

  // The document around the given text behind the metadata.
  function Document(name: string, hash: Option<string>, body: string): string {
    NAME_OPEN + ">" + (XmlEscape(name) + "<" + AfterName(hash, body))
  }

  function RenderWithMetadata(spec: DomainSpec, hash: Option<string>): string {
    Document(spec.name, hash, RenderBody(spec))
  }

  function DesiredHash(spec: DomainSpec, contentHash: string -> string): string {
    contentHash(RenderWithMetadata(spec, None))
  }

  function Render(spec: DomainSpec, contentHash: string -> string): string {
    RenderWithMetadata(spec, Some(DesiredHash(spec, contentHash)))
  }

  function LowerHex(c: char): char {
    if 'A' <= c <= 'F' then (c as int + 32) as char else c
  }

  function Lower(s: string): string {
    if s == [] then [] else [LowerHex(s[0])] + Lower(s[1..])
  }

  function MarkedValue(value: string): Option<string> {
    if |value| == 16 && (forall i :: 0 <= i < |value| ==> IsHexDigit(value[i])) then Some(Lower(value)) else None
  }

  // The text between the first '>' behind the marker and the next '<'.
  function ValueAfterMarker(text: string): Option<string> {
    match Find(text, ">")
    case None => None
    case Some(open) =>
      var value := text[open + 1..];
      match Find(value, "<")
      case None => None
      case Some(close) => MarkedValue(Trim(value[..close]))
  }

  // `&xml[xml.find(marker)?..]`
  function FromMarker(xml: string, marker: string): Option<string> {
    match Find(xml, marker)
    case None => None
    case Some(index) => Some(xml[index..])
  }

  function ExtractDesiredHash(xml: string): Option<string> {
    match FromMarker(xml, MARKER)
    case None => None
    case Some(text) => ValueAfterMarker(text)
  }

  predicate ExtractManaged(xml: string) {
    && Contains(xml, OWNER)
    && (Contains(xml, MARKER) || Contains(xml, "<nas-csi:managed>true</nas-csi:managed>"))
  }

  // ---- Escaping is a character-wise map, and it can neither hide nor create the marker ----

  function Entity(c: char): string {
    if c == '&' then "&amp;"
    else if c == '\'' then "&apos;"
    else if c == '"' then "&quot;"
    else if c == '<' then "&lt;"
    else if c == '>' then "&gt;"
    else [c]
  }

  lemma EscapeAppend(a: string, b: string)
    ensures XmlEscape(a + b) == XmlEscape(a) + XmlEscape(b)
  {
    ReplaceCharAppend(a, b, '&', "&amp;");
    var a1, b1 := ReplaceChar(a, '&', "&amp;"), ReplaceChar(b, '&', "&amp;");
    ReplaceCharAppend(a1, b1, '\'', "&apos;");
    var a2, b2 := ReplaceChar(a1, '\'', "&apos;"), ReplaceChar(b1, '\'', "&apos;");
    ReplaceCharAppend(a2, b2, '"', "&quot;");
    var a3, b3 := ReplaceChar(a2, '"', "&quot;"), ReplaceChar(b2, '"', "&quot;");
    ReplaceCharAppend(a3, b3, '<', "&lt;");
    ReplaceCharAppend(ReplaceChar(a3, '<', "&lt;"), ReplaceChar(b3, '<', "&lt;"), '>', "&gt;");
  }

  lemma ReplaceOne(c: char, d: char, t: string)
    ensures ReplaceChar([c], d, t) == if c == d then t else [c]
  {
    assert ReplaceChar([], d, t) == [];
  }

  lemma EscapeChar(c: char)
    ensures XmlEscape([c]) == Entity(c)
  {
    ReplaceOne(c, '&', "&amp;");
    if c == '&' {
      EntityStays("&amp;");
    } else {
      ReplaceOne(c, '\'', "&apos;");
      if c == '\'' {
        EntityStays("&apos;");
      } else {
        ReplaceOne(c, '"', "&quot;");
        if c == '"' {
          EntityStays("&quot;");
        } else {
          ReplaceOne(c, '<', "&lt;");
          if c == '<' {
            EntityStays("&lt;");
          } else {
            ReplaceOne(c, '>', "&gt;");
          }
        }
      }
    }
  }

  // Only '&' is replaced inside an entity, and '&' is replaced first.
  lemma EntityStays(e: string)
    requires '\'' !in e && '"' !in e && '<' !in e && '>' !in e
    ensures ReplaceChar(e, '\'', "&apos;") == e && ReplaceChar(e, '"', "&quot;") == e
    ensures ReplaceChar(e, '<', "&lt;") == e && ReplaceChar(e, '>', "&gt;") == e
  {
    ReplaceCharAbsent(e, '\'', "&apos;");
    ReplaceCharAbsent(e, '"', "&quot;");
    ReplaceCharAbsent(e, '<', "&lt;");
    ReplaceCharAbsent(e, '>', "&gt;");
  }

  // The five successive replacements act as one pass over the characters.
  lemma EscapeCons(s: string)
    requires s != []
    ensures XmlEscape(s) == Entity(s[0]) + XmlEscape(s[1..])
  {
    assert s == [s[0]] + s[1..];
    EscapeAppend([s[0]], s[1..]);
    EscapeChar(s[0]);
  }

  lemma {:induction false} EscapedHasNoAngle(s: string)
    ensures '<' !in XmlEscape(s) && '>' !in XmlEscape(s)
  {
    if s != [] {
      EscapeCons(s);
      EscapedHasNoAngle(s[1..]);
    }
  }

  lemma {:induction false} EscapeKeepsPlain(s: string)
    requires forall c :: c in s ==> Entity(c) == [c]
    ensures XmlEscape(s) == s
  {
    if s != [] {
      EscapeCons(s);
      EscapeKeepsPlain(s[1..]);
    }
  }

  predicate IsPlain(m: string) {
    forall c :: c in m ==> Entity(c) == [c]
  }

  lemma {:induction false} PrefixThroughEscape(s: string, m: string)
    requires IsPlain(m)
    ensures m <= XmlEscape(s) <==> m <= s
  {
    if s != [] && m != [] {
      EscapeCons(s);
      assert m == [m[0]] + m[1..] && s == [s[0]] + s[1..];
      if m[0] == s[0] {
        PrefixThroughEscape(s[1..], m[1..]);
        assert m <= s <==> m[1..] <= s[1..];
        assert XmlEscape(s)[1..] == XmlEscape(s[1..]);
        assert m <= XmlEscape(s) <==> m[1..] <= XmlEscape(s)[1..];
      }
    }
  }

  lemma ContainsBehindEntity(c: char, rest: string, m: string)
    requires Entity(c) != [c]
    requires |m| > 6 && ';' !in m
    ensures Contains(Entity(c) + rest, m) <==> Contains(rest, m)
  {
    var e := Entity(c);
    assert e == e[..|e| - 1] + [';'];
    TooShortToContain(e[..|e| - 1], m);
    ContainsAcrossBarrier(e + rest, e[..|e| - 1], ';', rest, m);
  }

  lemma ContainsCons(s: string, m: string)
    requires s != []
    ensures Contains(s, m) <==> m <= s || Contains(s[1..], m)
  {
  }

  /** Escaping neither hides nor creates a pattern longer than the entities and free of special characters. */
  lemma {:induction false} ContainsThroughEscape(s: string, m: string)
    requires IsPlain(m) && |m| > 6 && ';' !in m
    ensures Contains(XmlEscape(s), m) <==> Contains(s, m)
  {
    if s != [] {
      hide Contains, XmlEscape;
      ContainsThroughEscape(s[1..], m);
      EscapeCons(s);
      ContainsCons(s, m);
      if Entity(s[0]) == [s[0]] {
        PrefixThroughEscape(s, m);
        ContainsCons(XmlEscape(s), m);
        assert XmlEscape(s)[1..] == XmlEscape(s[1..]);
      } else {
        ContainsBehindEntity(s[0], XmlEscape(s[1..]), m);
      }
    }
  }

  // ---- The marker round trip ----

  lemma MarkerCharacters()
    ensures '>' !in MARKER && '<' !in MARKER && ':' !in MARKER && ';' !in MARKER
    ensures '&' !in MARKER && '\'' !in MARKER && '"' !in MARKER
    ensures IsPlain(MARKER) && 'h' in MARKER
  {
    assert MARKER[15] == 'h';
  }

  // The constants around the marker have no 'h', the marker has one.
  lemma NameOpenCharacters()
    ensures 'h' !in NAME_OPEN
  {
  }

  lemma NamespaceCharacters()
    ensures 'h' !in NAMESPACE && '>' !in NAMESPACE
  {
  }

  lemma BeforeMarkerCharacters()
    ensures 'h' !in BEFORE_MARKER
  {
    NamespaceCharacters();
    assert 'h' !in MANAGED_OPEN;
    assert 'h' !in MANAGED_CLOSE;
    assert 'h' !in METADATA_OPEN;
    assert 'h' !in NAME_END && 'h' !in INDENT;
  }

  /** Where the search for `m` ends in a text of the rendered shape: inside the name if the name has it,
      else at the intended place. */
  lemma FindInShape(s: string, a: string, name: string, b: string, m: string, y: string)
    requires s == a + ">" + (name + "<" + (b + ":" + (m + y)))
    requires 'h' in m && 'h' !in a && 'h' !in b
    requires '>' !in m && '<' !in m && ':' !in m
    ensures Contains(s, m) && Find(s, m).value ==
              if Contains(name, m) then |a| + 1 + Find(name, m).value else |a| + |name| + |b| + 3
  {
    var tail := b + ":" + (m + y);
    assert OccursAt(m + y, m, 0);
    FindIsFirst(m + y, m, 0);
    NoOccurrenceWithoutChar(b, m, 'h');
    FindAfterBarrier(tail, b, ':', m + y, m);
    var mid := name + "<" + tail;
    if Contains(name, m) {
      FindBeforeBarrier(name, '<', tail, m);
    } else {
      FindAfterBarrier(mid, name, '<', tail, m);
    }
    NoOccurrenceWithoutChar(a, m, 'h');
    FindAfterBarrier(s, a, '>', mid, m);
  }

  lemma DropInto(s: string, x: string, y: string, i: nat)
    requires s == x + y && i <= |y|
    ensures s[|x| + i..] == y[i..]
  {
  }

  lemma MarkerTail(s: string, a: string, name: string, b: string, y: string)
    requires s == a + ">" + (name + "<" + (b + ":" + y))
    ensures s[|a| + |name| + |b| + 3..] == y
  {
    var tail := b + ":" + y;
    var mid := name + "<" + tail;
    DropInto(s, a + ">", mid, |name| + 1 + |b| + 1);
    DropInto(mid, name + "<", tail, |b| + 1);
    DropInto(tail, b + ":", y, 0);
  }

  lemma NameTail(s: string, a: string, name: string, tail: string, i: nat)
    requires s == a + ">" + (name + "<" + tail)
    requires i <= |name|
    ensures s[|a| + 1 + i..] == name[i..] + "<" + tail
  {
    DropInto(s, a + ">", name + "<" + tail, i);
    assert (name + "<" + tail)[i..] == name[i..] + "<" + tail;
  }

  lemma CutAt(s: string, m: string, i: nat)
    requires Contains(s, m) && Find(s, m).value == i
    ensures FromMarker(s, m) == Some(s[i..])
  {
    hide Find;
  }

  lemma CutInsideName(s: string, a: string, name: string, tail: string, m: string)
    requires s == a + ">" + (name + "<" + tail)
    requires Contains(name, m) && Contains(s, m) && Find(s, m).value == |a| + 1 + Find(name, m).value
    ensures FromMarker(s, m) == Some(name[Find(name, m).value..] + "<" + tail)
  {
    hide FromMarker, Find, OccursAt, Contains;
    FindWithin(s, m);
    FindWithin(name, m);
    CutAt(s, m, Find(s, m).value);
    NameTail(s, a, name, tail, Find(name, m).value);
  }

  lemma FindWithin(s: string, m: string)
    requires Contains(s, m)
    ensures Find(s, m).Some? && Find(s, m).value <= |s|
  {
  }

  lemma CutBehindName(s: string, a: string, name: string, b: string, text: string, m: string)
    requires s == a + ">" + (name + "<" + (b + ":" + text))
    requires Contains(s, m) && Find(s, m).value == |a| + |name| + |b| + 3
    ensures FromMarker(s, m) == Some(text)
  {
    CutAt(s, m, Find(s, m).value);
    hide FromMarker, Find, OccursAt, Contains;
    MarkerTail(s, a, name, b, text);
  }

  lemma CutInShape(s: string, a: string, name: string, b: string, m: string, y: string)
    requires s == a + ">" + (name + "<" + (b + ":" + (m + y)))
    requires 'h' in m && 'h' !in a && 'h' !in b
    requires '>' !in m && '<' !in m && ':' !in m
    ensures Contains(name, m) ==> FromMarker(s, m) == Some(name[Find(name, m).value..] + "<" + (b + ":" + (m + y)))
    ensures !Contains(name, m) ==> FromMarker(s, m) == Some(m + y)
  {
    hide FromMarker, Find, OccursAt;
    FindInShape(s, a, name, b, m, y);
    if Contains(name, m) {
      CutInsideName(s, a, name, b + ":" + (m + y), m);
    } else {
      CutBehindName(s, a, name, b, m + y, m);
    }
  }

  lemma {:induction false} LowerKeepsLower(s: string)
    requires forall c :: c in s ==> IsLowerHex(c)
    ensures Lower(s) == s
  {
    if s != [] {
      assert s[0] in s;
      LowerKeepsLower(s[1..]);
    }
  }

  lemma HashReadBack(hash: string)
    requires IsHash(hash)
    ensures XmlEscape(hash) == hash && MarkedValue(Trim(hash)) == Some(hash)
    ensures '<' !in hash
  {
    EscapeKeepsPlain(hash);
    LowerKeepsLower(hash);
    assert !IsWhitespace(hash[0]) && !IsWhitespace(hash[15]);
  }

  lemma ValueInside(text: string, before: string, value: string, rest: string)
    requires text == before + ">" + (value + "<" + rest)
    requires '>' !in before && '<' !in value
    ensures ValueAfterMarker(text) == MarkedValue(Trim(value))
  {
    FindChar(before, '>', value + "<" + rest);
    assert text[|before| + 1..] == value + "<" + rest;
    FindChar(value, '<', rest);
    assert (value + "<" + rest)[..|value|] == value;
  }

  lemma ValueBehindMarker(hash: string, tail: string)
    requires IsHash(hash)
    ensures ValueAfterMarker(MARKER + BehindMarker(hash, tail)) == Some(hash)
  {
    HashReadBack(hash);
    MarkerCharacters();
    NamespaceCharacters();
    var rest := "/nas-csi:" + MARKER + METADATA_CLOSE + INDENT + tail;
    assert BehindMarker(hash, tail) == NAMESPACE + ">" + (hash + "<" + rest);
    ValueInside(MARKER + BehindMarker(hash, tail), MARKER + NAMESPACE, hash, rest);
  }

  // A name with the marker in it stops the search inside the name; the next text is blank.
  lemma ValueBehindName(nameRest: string, rest: string)
    requires '>' !in nameRest
    ensures ValueAfterMarker(nameRest + "<" + (NAME_END + ">" + (INDENT + "<" + rest))) == None
  {
    assert '>' !in NAME_END;
    ValueInside(nameRest + "<" + (NAME_END + ">" + (INDENT + "<" + rest)), nameRest + "<" + NAME_END, INDENT, rest);
    TrimmedIsNoLonger(INDENT);
  }

  lemma TrimmedIsNoLonger(s: string)
    ensures |Trim(s)| <= |s|
  {
    TrimStartIsNoLonger(s);
    TrimEndIsNoLonger(TrimStart(s));
  }

  lemma {:induction false} TrimStartIsNoLonger(s: string)
    ensures |TrimStart(s)| <= |s|
  {
    if s != [] {
      TrimStartIsNoLonger(s[1..]);
    }
  }

  lemma {:induction false} TrimEndIsNoLonger(s: string)
    ensures |TrimEnd(s)| <= |s|
  {
    if s != [] {
      TrimEndIsNoLonger(s[..|s| - 1]);
    }
  }

  lemma CutDocument(name: string, hash: string, body: string)
    ensures var escaped, y := XmlEscape(name), BehindMarker(hash, body);
            FromMarker(Document(name, Some(hash), body), MARKER) == Some(
              if Contains(escaped, MARKER)
              then escaped[Find(escaped, MARKER).value..] + "<" + (BEFORE_MARKER + ":" + (MARKER + y))
              else MARKER + y)
  {
    MarkerCharacters();
    NameOpenCharacters();
    BeforeMarkerCharacters();
    CutInShape(Document(name, Some(hash), body), NAME_OPEN, XmlEscape(name), BEFORE_MARKER, MARKER,
               BehindMarker(hash, body));
  }

  lemma NameHidesMarker(name: string, tail: string)
    requires '>' !in name && Contains(name, MARKER)
    ensures ValueAfterMarker(name[Find(name, MARKER).value..] + "<" + (BEFORE_MARKER + ":" + tail)) == None
  {
    var rest := METADATA_OPEN + ":" + tail;
    assert BEFORE_MARKER + ":" + tail == NAME_END + ">" + (INDENT + "<" + rest);
    ValueBehindName(name[Find(name, MARKER).value..], rest);
  }

  lemma DocumentRoundTrip(name: string, hash: string, body: string)
    requires IsHash(hash)
    ensures ExtractDesiredHash(Document(name, Some(hash), body)) == if Contains(name, MARKER) then None else Some(hash)
  {
    MarkerCharacters();
    ContainsThroughEscape(name, MARKER);
    CutDocument(name, hash, body);
    if Contains(name, MARKER) {
      EscapedHasNoAngle(name);
      NameHidesMarker(XmlEscape(name), MARKER + BehindMarker(hash, body));
    } else {
      ValueBehindMarker(hash, body);
    }
  }

  /** The hash read back from the XML of a domain is the desired hash it was rendered with,
      exactly when the domain's name does not contain the marker text; otherwise nothing is read. */
  lemma DesiredHashRoundTrip(spec: DomainSpec, contentHash: string -> string)
    requires IsHash(DesiredHash(spec, contentHash))
    ensures ExtractDesiredHash(Render(spec, contentHash)) ==
            if Contains(spec.name, MARKER) then None else Some(DesiredHash(spec, contentHash))
  {
    hide RenderBody, Document, ExtractDesiredHash, Contains;
    DocumentRoundTrip(spec.name, DesiredHash(spec, contentHash), RenderBody(spec));
  }

  lemma ContainsInPart(x: string, y: string, m: string)
    ensures Contains(x, m) || Contains(y, m) ==> Contains(x + y, m)
  {
    if Contains(x, m) {
      var i := Find(x, m).value;
      assert m == x[i..i + |m|] == (x + y)[i..i + |m|];
      assert m <= (x + y)[i..];
      FindIsFirst(x + y, m, i);
    } else if Contains(y, m) {
      var i := Find(y, m).value;
      assert (x + y)[|x| + i..] == y[i..];
      FindIsFirst(x + y, m, |x| + i);
    }
  }

  const OWNER := "nas-csi"

  lemma OwnerOccurs()
    ensures OccursAt(MANAGED_OPEN, OWNER, 15)
  {
    assert OWNER == MANAGED_OPEN[15..22];
  }

  lemma OwnerBeforeMarker(owner: string)
    requires owner == OWNER
    ensures Contains(BEFORE_MARKER, owner)
  {
    OwnerOccurs();
    FindIsFirst(MANAGED_OPEN, owner, 15);
    ContainsInPart(MANAGED_OPEN, NAMESPACE, owner);
    ContainsInPart(MANAGED_OPEN + NAMESPACE, MANAGED_CLOSE, owner);
    ContainsInPart(INDENT + "<", METADATA_OPEN, owner);
    ContainsInPart(NAME_END + ">", INDENT + "<" + METADATA_OPEN, owner);
  }

  lemma DocumentNamesOwner(name: string, hash: string, body: string, m: string)
    requires m == OWNER
    ensures Contains(Document(name, Some(hash), body), m)
  {
    OwnerBeforeMarker(m);
    var escaped, behind, after :=
      XmlEscape(name), ":" + (MARKER + BehindMarker(hash, body)), AfterName(Some(hash), body);
    assert after == BEFORE_MARKER + behind;
    ContainsInPart(BEFORE_MARKER, behind, m);
    ContainsInPart(escaped + "<", after, m);
    ContainsInPart(NAME_OPEN + ">", escaped + "<" + after, m);
  }

  lemma DocumentIsManaged(name: string, hash: string, body: string)
    ensures ExtractManaged(Document(name, Some(hash), body))
  {
    DocumentNamesOwner(name, hash, body, OWNER);
    CutDocument(name, hash, body);
  }

  /** A rendered domain is always recognised as managed, whatever it is called. */
  lemma RenderedIsManaged(spec: DomainSpec, contentHash: string -> string)
    ensures ExtractManaged(Render(spec, contentHash))
  {
    hide RenderBody, Document, ExtractManaged;
    DocumentIsManaged(spec.name, DesiredHash(spec, contentHash), RenderBody(spec));
  }

  lemma ContentHashIsHash(spec: DomainSpec)
    ensures IsHash(DesiredHash(spec, ContentHash))
  {
    hide RenderWithMetadata, Hex16;
  }

  // With the FNV-1a hash of the program, for every domain.
  lemma FnvRoundTrip(spec: DomainSpec)
    ensures ExtractDesiredHash(Render(spec, ContentHash)) ==
            if Contains(spec.name, MARKER) then None else Some(DesiredHash(spec, ContentHash))
  {
    hide Render, ContentHash, ExtractDesiredHash, Contains, DesiredHash;
    ContentHashIsHash(spec);
    DesiredHashRoundTrip(spec, ContentHash);
  }
}
