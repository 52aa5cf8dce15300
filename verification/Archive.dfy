/** The archive that holds a package, written (driver/archive.go, export/writer.go) and
    read (export/read.go). A byte is a character. */
module Archive {
  import opened Wrappers

  type Bytes = string

  const MAGIC := "!<arch>\n"
  const HEADER_SIZE := 60
  const DEFINITION_MEMBER := "__.PKGDEF"
  const OBJECT_MEMBER := "_go_.o"
  const SECTION_END := "\n$$\n"

  datatype Error =
    | NotAnArchive | UnreadableSize | Truncated | NoDefinition | NoObjectHeader | NoSection | NotBinary | NoFormat
    | NotUnified | NoEnd | LongName | BadHeader

  predicate HasPrefix(b: Bytes, prefix: Bytes) { |b| >= |prefix| && b[..|prefix|] == prefix }

  predicate HasSuffix(b: Bytes, suffix: Bytes) { |b| >= |suffix| && b[|b| - |suffix|..] == suffix }

  // ----- Decimal numbers -----

  function Digit(n: nat): char
    requires n < 10
  {
    "0123456789"[n]
  }

  function Decimal(n: nat): (s: string)
    ensures |s| > 0
  {
    if n < 10 then [Digit(n)] else Decimal(n / 10) + [Digit(n % 10)]
  }

  function DigitValue(c: char): Option<nat> {
    if '0' <= c <= '9' then
      var d: nat := (c as int) - ('0' as int);
      Some(d)
    else None
  }

  /** The value of a string of digits. */
  function Digits(s: string): Option<nat> {
    if s == "" then None
    else
      var d :- DigitValue(s[|s| - 1]);
      if |s| == 1 then Some(d)
      else
        var n :- Digits(s[..|s| - 1]);
        Some(10 * n + d)
  }

  /** strconv.Atoi on at most ten characters, which fit an int. */
  function Atoi(s: string): Option<int> {
    if s != "" && (s[0] == '-' || s[0] == '+') then
      var n :- Digits(s[1..]);
      var m: int := n;
      Some(if s[0] == '-' then -m else m)
    else
      Digits(s)
  }

  function Spaces(n: nat): string { seq(n, _ => ' ') }

  /** Left-justified in a field, and longer than the field when it does not fit. */
  function Pad(s: string, width: nat): string { if |s| >= width then s else s + Spaces(width - |s|) }

  function TrimRight(s: string): string {
    if s != "" && s[|s| - 1] == ' ' then TrimRight(s[..|s| - 1]) else s
  }

  // ----- Writing -----

  function Header(name: string, size: nat): Bytes {
    Pad(name, 16) + Pad("0", 12) + Pad("0", 6) + Pad("0", 6) + Pad("644", 8) + Pad(Decimal(size), 10) + "`\n"
  }

  /** A member: its header, its body, and a byte that makes the length even. */
  function Member(name: string, body: Bytes): Bytes {
    Header(name, |body|) + body + if |body| % 2 != 0 then [0 as char] else ""
  }

  function Written(definition: Option<Bytes>, code: Bytes): Bytes {
    MAGIC + (if definition.Some? then Member(DEFINITION_MEMBER, definition.value) else "") + Member(OBJECT_MEMBER, code)
  }

  lemma Joined(a: Bytes, b: Bytes, c: Bytes, d: Bytes)
    ensures a + b + c + d == a + (b + c + d) && a + b + c == a + (b + c) && a + "" == a && a + b + "" == a + b
  {
  }

  class Writer {
    var b: Bytes

    constructor ()
      ensures b == ""
    {
      b := "";
    }

    method Write(p: Bytes)
      modifies this
      ensures b == old(b) + p
    {
      b := b + p;
    }

    method WriteHeader(name: string, size: nat) returns (err: Option<Error>)
      modifies this
      ensures err.Some? <==> |name| > 16
      ensures b == if |name| > 16 then old(b) else old(b) + Header(name, size)
    {
      if |name| > 16 { return Some(LongName); }
      Write(Header(name, size));
      err := None;
    }

    method WriteMember(name: string, body: Bytes) returns (err: Option<Error>)
      modifies this
      ensures err.Some? <==> |name| > 16
      ensures b == if |name| > 16 then old(b) else old(b) + Member(name, body)
    {
      err := WriteHeader(name, |body|);
      if err.Some? { return; }
      Write(body);
      if |body| % 2 != 0 { Write([0 as char]); }
      Joined(old(b), Header(name, |body|), body, if |body| % 2 != 0 then [0 as char] else "");
    }

    method WriteArchive(definition: Option<Bytes>, code: Bytes)
      modifies this
      ensures b == old(b) + Written(definition, code)
    {
      Write(MAGIC);
      if definition.Some? {
        var err := WriteMember(DEFINITION_MEMBER, definition.value);
      }
      var err := WriteMember(OBJECT_MEMBER, code);
      Joined(old(b), MAGIC, if definition.Some? then Member(DEFINITION_MEMBER, definition.value) else "", Member(OBJECT_MEMBER, code));
    }
  }

  /** The body of the member that holds the export data. */
  function Definition(header: Bytes, isMain: bool, payload: Bytes): Result<Bytes, Error> {
    if header == "" || header[|header| - 1] != '\n' || !HasPrefix(header, "go object ") then Err(BadHeader)
    else Ok(header + (if isMain then "main\n" else "") + "\n" + "\n$$B\nu" + payload + SECTION_END)
  }

  // ----- Reading -----

  /** The walk over the members from an offset. */
  function FindDefinition(data: Bytes, off: nat): Result<Bytes, Error>
    decreases |data| - off
  {
    if off + HEADER_SIZE > |data| then Err(NoDefinition)
    else
      var header := data[off..off + HEADER_SIZE];
      var name, size := TrimRight(header[0..16]), Atoi(TrimRight(header[48..58]));
      var body := off + HEADER_SIZE;
      if size.None? || size.value < 0 then Err(UnreadableSize)
      else if body + size.value > |data| then Err(Truncated)
      else if name == DEFINITION_MEMBER then Ok(data[body..body + size.value])
      else FindDefinition(data, body + size.value + size.value % 2)
  }

  method PackageDefinition(data: Bytes) returns (r: Result<Bytes, Error>)
    ensures r == if HasPrefix(data, MAGIC) then FindDefinition(data, |MAGIC|) else Err(NotAnArchive)
  {
    if !HasPrefix(data, MAGIC) { return Err(NotAnArchive); }
    var off := |MAGIC|;
    while off + HEADER_SIZE <= |data|
      invariant FindDefinition(data, |MAGIC|) == FindDefinition(data, off)
      decreases |data| - off
    {
      var header := data[off..off + HEADER_SIZE];
      var name := TrimRight(header[0..16]);
      var size := Atoi(TrimRight(header[48..58]));
      if size.None? || size.value < 0 { return Err(UnreadableSize); }
      var body := off + HEADER_SIZE;
      if body + size.value > |data| { return Err(Truncated); }
      if name == DEFINITION_MEMBER { return Ok(data[body..body + size.value]); }
      off := body + size.value + size.value % 2;
    }
    r := Err(NoDefinition);
  }

  function IndexOf(b: Bytes, c: char): (r: Option<nat>)
    ensures r.Some? ==> r.value < |b| && b[r.value] == c && c !in b[..r.value]
    ensures r.None? ==> c !in b
  {
    if b == "" then None
    else if b[0] == c then Some(0)
    else
      var i :- IndexOf(b[1..], c);
      assert b[..i + 1] == [b[0]] + b[1..][..i];
      Some(i + 1)
  }

  /** One line off the front, without its newline. */
  function CutLine(b: Bytes): (r: Option<(Bytes, Bytes)>)
    ensures r.Some? ==> b == r.value.0 + "\n" + r.value.1 && '\n' !in r.value.0
    ensures r.None? <==> '\n' !in b
  {
    var i := IndexOf(b, '\n');
    if i.None? then None
    else
      assert b == b[..i.value] + "\n" + b[i.value + 1..];
      Some((b[..i.value], b[i.value + 1..]))
  }

  /** The lines that follow the first, up to the one that begins the section. */
  function Section(rest: Bytes): Option<Bytes>
    decreases |rest|
  {
    if HasPrefix(rest, "$$") then Some(rest)
    else
      var (_, more) :- CutLine(rest);
      Section(more)
  }

  function AfterSection(section: Bytes): Result<Bytes, Error> {
    var cut := CutLine(section);
    if (if cut.Some? then cut.value.0 else "") != "$$B" then Err(NotBinary)
    else
      var rest := cut.value.1;
      if rest == "" then Err(NoFormat)
      else if rest[0] != 'u' then Err(NotUnified)
      else if !HasSuffix(rest[1..], SECTION_END) then Err(NoEnd)
      else Ok(rest[1..|rest| - |SECTION_END|])
  }

  function UnifiedOf(def: Bytes): Result<Bytes, Error> {
    var cut := CutLine(def);
    if cut.None? || !HasPrefix(cut.value.0, "go object ") then Err(NoObjectHeader)
    else
      ReadBehind(cut.value.1)
  }

  /** What is read behind the first line of a definition. */
  function ReadBehind(rest: Bytes): Result<Bytes, Error> {
    var section := Section(rest);
    if section.None? then Err(NoSection) else AfterSection(section.value)
  }

  method Unified(def: Bytes) returns (r: Result<Bytes, Error>)
    ensures r == UnifiedOf(def)
  {
    var cut := CutLine(def);
    if cut.None? || !HasPrefix(cut.value.0, "go object ") { return Err(NoObjectHeader); }
    var rest := cut.value.1;
    while !HasPrefix(rest, "$$")
      invariant Section(cut.value.1) == Section(rest)
      decreases |rest|
    {
      var next := CutLine(rest);
      if next.None? { return Err(NoSection); }
      rest := next.value.1;
    }
    r := AfterSection(rest);
  }

  function PayloadOf(data: Bytes): Result<Bytes, Error> {
    if !HasPrefix(data, MAGIC) then Err(NotAnArchive)
    else
      var def := FindDefinition(data, |MAGIC|);
      if def.Err? then def else UnifiedOf(def.value)
  }

  method Payload(data: Bytes) returns (r: Result<Bytes, Error>)
    ensures r == PayloadOf(data)
  {
    r := PackageDefinition(data);
    if r.Ok? { r := Unified(r.value); }
  }

  // ----- Numbers -----

  lemma DigitHasValue(n: nat)
    requires n < 10
    ensures DigitValue(Digit(n)) == Some(n)
  {
  }

  lemma {:induction false} DecimalIsRead(n: nat)
    ensures Digits(Decimal(n)) == Some(n) && forall c <- Decimal(n) :: '0' <= c <= '9'
  {
    if n < 10 {
      DigitHasValue(n);
    } else {
      DecimalIsRead(n / 10);
      DigitHasValue(n % 10);
      var s := Decimal(n);
      assert s[..|s| - 1] == Decimal(n / 10) && s[|s| - 1] == Digit(n % 10);
    }
  }

  function Power(k: nat): nat { if k == 0 then 1 else 10 * Power(k - 1) }

  /** A number has at most so many digits. */
  lemma {:induction false} DecimalLength(n: nat, k: nat)
    requires k > 0
    ensures |Decimal(n)| <= k <==> n < Power(k)
  {
    if n >= 10 && k > 1 {
      DecimalLength(n / 10, k - 1);
    } else if k > 1 {
      PowerGrows(k);
    }
  }

  lemma {:induction false} PowerGrows(k: nat)
    requires k > 0
    ensures Power(k) >= 10
  {
    if k > 1 { PowerGrows(k - 1); }
  }

  lemma {:induction false} TrimSpaces(s: string, n: nat)
    ensures TrimRight(s + Spaces(n)) == TrimRight(s)
  {
    if n == 0 {
      assert s + Spaces(0) == s;
    } else {
      var t := s + Spaces(n);
      assert t[|t| - 1] == ' ' && t[..|t| - 1] == s + Spaces(n - 1);
      TrimSpaces(s, n - 1);
    }
  }

  lemma TrimPad(s: string, width: nat)
    ensures TrimRight(Pad(s, width)) == TrimRight(s)
  {
    if |s| < width { TrimSpaces(s, width - |s|); }
  }

  /** A size that fits its field is read back. */
  lemma SizeIsRead(n: nat)
    ensures Atoi(TrimRight(Pad(Decimal(n), 10))) == Some(n)
  {
    TrimPad(Decimal(n), 10);
    DecimalIsRead(n);
    var s := Decimal(n);
    assert s[|s| - 1] in s && s[0] in s;
  }

  // ----- Members -----

  predicate Fits(name: string, body: Bytes) { |name| <= 16 && |body| < Power(10) }

  lemma HeaderFields(name: string, body: Bytes)
    requires Fits(name, body)
    ensures var h := Header(name, |body|);
            |h| == HEADER_SIZE && h[0..16] == Pad(name, 16) && h[48..58] == Pad(Decimal(|body|), 10)
  {
    DecimalLength(|body|, 10);
    var a, b, c := Pad(name, 16), Pad("0", 12) + Pad("0", 6) + Pad("0", 6) + Pad("644", 8), Pad(Decimal(|body|), 10);
    assert Header(name, |body|) == a + b + c + "`\n";
    assert |a| == 16 && |b| == 32 && |c| == 10;
  }

  /** Text at the left of a column and spaces to its end. */
  predicate Column(h: Bytes, from: nat, to: nat, text: string) {
    from + |text| <= to <= |h| && h[from..from + |text|] == text && forall i :: from + |text| <= i < to ==> h[i] == ' '
  }

  lemma PadColumn(h: Bytes, from: nat, to: nat, text: string)
    requires from + |text| <= to <= |h| && h[from..to] == Pad(text, to - from)
    ensures Column(h, from, to, text)
  {
    var p, width := Pad(text, to - from), to - from;
    assert p == text + Spaces(width - |text|) by { assert text + Spaces(0) == text; }
    forall i | 0 <= i < width ensures h[from + i] == p[i] { assert h[from + i] == h[from..to][i]; }
    forall i | 0 <= i < |text| ensures h[from + i] == text[i] { assert h[from + i] == p[i]; }
    assert h[from..from + |text|] == text;
    forall i | from + |text| <= i < to ensures h[i] == ' ' { assert h[from + (i - from)] == p[i - from]; }
  }

  lemma SixColumns(a: Bytes, b: Bytes, c: Bytes, d: Bytes, e: Bytes, f: Bytes, g: Bytes)
    requires |a| == 16 && |b| == 12 && |c| == 6 && |d| == 6 && |e| == 8 && |f| == 10 && |g| == 2
    ensures var h := a + b + c + d + e + f + g;
            && |h| == 60 && h[0..16] == a && h[16..28] == b && h[28..34] == c && h[34..40] == d && h[40..48] == e
            && h[48..58] == f && h[58] == g[0] && h[59] == g[1]
  {
  }

  /** The sixty bytes in front of a member: its name, a time, an owner and a group of
      zero, the mode 644, the size, and the two bytes at the end. */
  lemma HeaderColumns(name: string, body: Bytes)
    requires Fits(name, body)
    ensures var h := Header(name, |body|);
            && |h| == 60 && Column(h, 0, 16, name) && Column(h, 16, 28, "0") && Column(h, 28, 34, "0") && Column(h, 34, 40, "0")
            && Column(h, 40, 48, "644") && Column(h, 48, 58, Decimal(|body|)) && h[58] == '`' && h[59] == '\n'
  {
    DecimalLength(|body|, 10);
    HeaderIs(name, Decimal(|body|), "644", "0");
  }

  lemma HeaderIs(name: string, size: string, mode: string, zero: string)
    requires |name| <= 16 && |size| <= 10 && |mode| <= 8 && |zero| <= 6
    ensures var h := Pad(name, 16) + Pad(zero, 12) + Pad(zero, 6) + Pad(zero, 6) + Pad(mode, 8) + Pad(size, 10) + "`\n";
            && |h| == 60 && Column(h, 0, 16, name) && Column(h, 16, 28, zero) && Column(h, 28, 34, zero) && Column(h, 34, 40, zero)
            && Column(h, 40, 48, mode) && Column(h, 48, 58, size) && h[58] == '`' && h[59] == '\n'
  {
    var a, b, c, d, e, g := Pad(name, 16), Pad(zero, 12), Pad(zero, 6), Pad(zero, 6), Pad(mode, 8), Pad(size, 10);
    var h := a + b + c + d + e + g + "`\n";
    SixColumns(a, b, c, d, e, g, "`\n");
    PadColumn(h, 0, 16, name);
    PadColumn(h, 16, 28, zero);
    PadColumn(h, 28, 34, zero);
    PadColumn(h, 34, 40, zero);
    PadColumn(h, 40, 48, mode);
    PadColumn(h, 48, 58, size);
  }

  /** A header has the length every reader expects exactly when the size fits. */
  lemma HeaderLength(name: string, size: nat)
    requires |name| <= 16
    ensures |Header(name, size)| == HEADER_SIZE <==> size < Power(10)
  {
    DecimalLength(size, 10);
  }

  lemma Slices(before: Bytes, h: Bytes, body: Bytes, rest: Bytes)
    ensures var data := before + (h + (body + rest));
            && |before| + |h| + |body| <= |data| && data[|before|..|before| + |h|] == h
            && data[|before| + |h|..|before| + |h| + |body|] == body
  {
  }

  lemma MemberParts(name: string, body: Bytes, after: Bytes)
    ensures Member(name, body) + after
            == Header(name, |body|) + (body + ((if |body| % 2 != 0 then [0 as char] else "") + after))
  {
  }

  /** A member at an offset: its header, its body and where the next one is. */
  predicate MemberAt(data: Bytes, off: nat, name: string, body: Bytes, next: nat) {
    && off + HEADER_SIZE + |body| <= |data| && next == off + HEADER_SIZE + |body| + |body| % 2
    && data[off + HEADER_SIZE..off + HEADER_SIZE + |body|] == body
    && var h := data[off..off + HEADER_SIZE]; TrimRight(h[0..16]) == name && Atoi(TrimRight(h[48..58])) == Some(|body|)
  }

  lemma FindStep(data: Bytes, off: nat, name: string, body: Bytes, next: nat)
    requires MemberAt(data, off, name, body, next)
    ensures FindDefinition(data, off) == if name == DEFINITION_MEMBER then Ok(body) else FindDefinition(data, next)
  {
  }

  /** A member lies where it was written. */
  lemma MemberLies(before: Bytes, name: string, body: Bytes, after: Bytes)
    requires Fits(name, body)
    ensures MemberAt(before + (Member(name, body) + after), |before|, TrimRight(name), body, |before + Member(name, body)|)
  {
    HeaderFields(name, body);
    TrimPad(name, 16);
    SizeIsRead(|body|);
    MemberParts(name, body, after);
    Slices(before, Header(name, |body|), body, (if |body| % 2 != 0 then [0 as char] else "") + after);
  }

  datatype Entry = Entry(name: string, body: Bytes)

  /** Members, then the one with the export data, then anything. */
  function Members(list: seq<Entry>, def: Bytes, after: Bytes): Bytes {
    if list == [] then Member(DEFINITION_MEMBER, def) + after
    else Member(list[0].name, list[0].body) + Members(list[1..], def, after)
  }

  /** The export data is found behind any members of other names, of odd or even
      sizes, whatever follows it. */
  lemma {:induction false} DefinitionIsFound(before: Bytes, list: seq<Entry>, def: Bytes, after: Bytes)
    requires forall e <- list :: Fits(e.name, e.body) && TrimRight(e.name) != DEFINITION_MEMBER
    requires |def| < Power(10)
    ensures FindDefinition(before + Members(list, def, after), |before|) == Ok(def)
    decreases |list|
  {
    if list == [] {
      DefinitionFirst(before, def, after);
    } else {
      var m, rest := Member(list[0].name, list[0].body), Members(list[1..], def, after);
      OtherFirst(before, list[0].name, list[0].body, rest);
      DefinitionIsFound(before + m, list[1..], def, after);
      Assoc(before, m, rest);
    }
  }

  lemma Assoc(a: Bytes, b: Bytes, c: Bytes)
    ensures (a + b) + c == a + (b + c)
  {
  }

  lemma DefinitionFirst(before: Bytes, def: Bytes, after: Bytes)
    requires |def| < Power(10)
    ensures FindDefinition(before + (Member(DEFINITION_MEMBER, def) + after), |before|) == Ok(def)
  {
    assert TrimRight(DEFINITION_MEMBER) == DEFINITION_MEMBER;
    MemberLies(before, DEFINITION_MEMBER, def, after);
    FindStep(before + (Member(DEFINITION_MEMBER, def) + after), |before|, DEFINITION_MEMBER, def, |before + Member(DEFINITION_MEMBER, def)|);
  }

  lemma OtherFirst(before: Bytes, name: string, body: Bytes, rest: Bytes)
    requires Fits(name, body) && TrimRight(name) != DEFINITION_MEMBER
    ensures var m := Member(name, body);
            FindDefinition(before + (m + rest), |before|) == FindDefinition(before + (m + rest), |before + m|)
  {
    MemberLies(before, name, body, rest);
    FindStep(before + (Member(name, body) + rest), |before|, TrimRight(name), body, |before + Member(name, body)|);
  }

  /** Without the member the walk ends with an error that says so. */
  lemma NoDefinitionIsFound(code: Bytes)
    requires |code| < Power(10)
    ensures PayloadOf(Written(None, code)) == Err(NoDefinition)
  {
    var data := Written(None, code);
    assert data == MAGIC + (Member(OBJECT_MEMBER, code) + "");
    assert data[..|MAGIC|] == MAGIC;
    MemberLies(MAGIC, OBJECT_MEMBER, code, "");
    FindStep(data, |MAGIC|, OBJECT_MEMBER, code, |MAGIC + Member(OBJECT_MEMBER, code)|);
  }

  /** A member the reader accepts: a size that is a number and not negative, and a
      body that is there. */
  predicate Accepts(data: Bytes, off: nat, name: string, size: nat) {
    && off + 60 + size <= |data|
    && TrimRight(data[off..off + 16]) == name && Atoi(TrimRight(data[off + 48..off + 58])) == Some(size)
  }

  /** From an offset on, members of other names lead to one of this name. */
  predicate Leads(data: Bytes, offs: seq<nat>, def: Bytes)
    decreases |offs|
  {
    && offs != []
    && if |offs| == 1 then Accepts(data, offs[0], "__.PKGDEF", |def|) && data[offs[0] + 60..offs[0] + 60 + |def|] == def
       else
         && offs[0] + 60 <= offs[1]
         && (exists size :: 0 <= size <= |data| && Other(data, offs[0], size) && offs[1] == offs[0] + 60 + size + size % 2)
         && Leads(data, offs[1..], def)
  }

  predicate Other(data: Bytes, off: nat, size: nat) {
    off + 60 <= |data| && TrimRight(data[off..off + 16]) != "__.PKGDEF" && Accepts(data, off, TrimRight(data[off..off + 16]), size)
  }

  lemma HeaderAt(data: Bytes, off: nat)
    requires off + 60 <= |data|
    ensures var h := data[off..off + HEADER_SIZE]; h[0..16] == data[off..off + 16] && h[48..58] == data[off + 48..off + 58]
  {
    var h := data[off..off + HEADER_SIZE];
    forall i | 0 <= i < 60 ensures h[i] == data[off + i] { }
    assert h[0..16] == data[off..off + 16];
    assert h[48..58] == data[off + 48..off + 58];
  }

  lemma {:induction false} LeadsIsFound(data: Bytes, offs: seq<nat>, def: Bytes)
    requires Leads(data, offs, def)
    ensures FindDefinition(data, offs[0]) == Ok(def)
    decreases |offs|
  {
    if |offs| == 1 {
      HeaderAt(data, offs[0]);
    } else {
      var size :| 0 <= size <= |data| && Other(data, offs[0], size) && offs[1] == offs[0] + 60 + size + size % 2;
      HeaderAt(data, offs[0]);
      LeadsIsFound(data, offs[1..], def);
    }
  }

  lemma {:induction false} FoundIsLead(data: Bytes, off: nat, def: Bytes) returns (offs: seq<nat>)
    requires FindDefinition(data, off) == Ok(def)
    ensures Leads(data, offs, def) && offs[0] == off
    decreases |data| - off
  {
    HeaderAt(data, off);
    var name, size := TrimRight(data[off..off + 16]), Atoi(TrimRight(data[off + 48..off + 58])).value;
    if name == DEFINITION_MEMBER {
      offs := [off];
    } else {
      var next := off + 60 + size + size % 2;
      var rest := FoundIsLead(data, next, def);
      offs := [off] + rest;
      assert Other(data, off, size) && offs[1] == next && offs[1..] == rest;
    }
  }

  /** The reader gives a member's body exactly when members it accepts lead to it. */
  lemma FoundExactly(data: Bytes, off: nat, def: Bytes)
    ensures FindDefinition(data, off) == Ok(def) <==> exists offs :: Leads(data, offs, def) && offs[0] == off
  {
    if FindDefinition(data, off) == Ok(def) { var offs := FoundIsLead(data, off, def); }
    if offs :| Leads(data, offs, def) && offs[0] == off { LeadsIsFound(data, offs, def); }
  }

  // ----- The payload -----

  /** A later line of the header begins a section. */
  predicate Marked(lines: Bytes)
    decreases |lines|
  {
    HasPrefix(lines, "$$") || (CutLine(lines).Some? && Marked(CutLine(lines).value.1))
  }

  lemma {:induction false} IndexFirst(line: Bytes, rest: Bytes)
    requires '\n' !in line
    ensures IndexOf(line + "\n" + rest, '\n') == Some(|line|)
  {
    var b := line + "\n" + rest;
    if line != "" {
      assert b[0] == line[0] && line[0] in line && b[1..] == line[1..] + "\n" + rest;
      IndexFirst(line[1..], rest);
    }
  }

  lemma CutFront(line: Bytes, rest: Bytes)
    requires '\n' !in line
    ensures CutLine(line + "\n" + rest) == Some((line, rest))
  {
    IndexFirst(line, rest);
    var b := line + "\n" + rest;
    assert b[..|line|] == line && b[|line| + 1..] == rest;
  }

  /** Cutting a line off lines that end, in front of anything. */
  lemma CutBefore(lines: Bytes, after: Bytes)
    requires lines != "" && lines[|lines| - 1] == '\n'
    ensures CutLine(lines).Some?
    ensures var (line, rest) := CutLine(lines).value;
            && CutLine(lines + after) == Some((line, rest + after)) && (rest != "" ==> rest[|rest| - 1] == '\n')
  {
    assert lines[|lines| - 1] in lines;
    var (line, rest) := CutLine(lines).value;
    assert lines + after == line + "\n" + (rest + after);
    CutFront(line, rest + after);
    if rest != "" { assert lines[|lines| - 1] == rest[|rest| - 1]; }
  }

  const SECTION := "$$B\nu"

  lemma SectionStarts(payload: Bytes)
    ensures AfterSection(SECTION + payload + SECTION_END) == Ok(payload)
  {
    var body := "u" + payload + SECTION_END;
    assert SECTION + payload + SECTION_END == "$$B" + "\n" + body;
    CutFront("$$B", body);
    assert body[0] == 'u' && body[1..] == payload + SECTION_END;
    assert (payload + SECTION_END)[|payload|..] == SECTION_END;
    assert body[1..|body| - |SECTION_END|] == payload;
  }

  lemma SectionParts(payload: Bytes)
    ensures "$$B\nu" + payload + "\n$$\n" == SECTION + payload + SECTION_END
    ensures SECTION + payload + SECTION_END == "$$B" + "\n" + ("u" + (payload + SECTION_END))
  {
    assert SECTION == "$$B" + "\n" + "u";
    assert "$$B" + "\n" + "u" + payload + SECTION_END == "$$B" + "\n" + ("u" + (payload + SECTION_END));
  }

  lemma SectionEnds(rest: Bytes)
    requires rest != "" && rest[0] == 'u' && HasSuffix(rest[1..], SECTION_END)
    ensures rest == "u" + (rest[1..|rest| - |SECTION_END|] + SECTION_END)
  {
    var end := rest[1..];
    assert end == end[..|end| - |SECTION_END|] + SECTION_END;
    assert end[..|end| - |SECTION_END|] == rest[1..|rest| - |SECTION_END|];
    assert rest == "u" + end;
  }

  /** A section gives a payload exactly when it is the payload between its marks. */
  lemma SectionExactly(section: Bytes, payload: Bytes)
    ensures AfterSection(section) == Ok(payload) <==> section == "$$B\nu" + payload + "\n$$\n"
  {
    SectionParts(payload);
    SectionStarts(payload);
    if AfterSection(section) == Ok(payload) { SectionEnds(CutLine(section).value.1); }
  }

  /** The lines of a header in front of the section are passed over exactly when none
      of them begins like a section. */
  lemma {:induction false} SectionBehind(lines: Bytes, section: Bytes)
    requires (lines != "" ==> lines[|lines| - 1] == '\n') && HasPrefix(section, "$$")
    ensures !Marked(lines) ==> Section(lines + section) == Some(section)
    ensures Marked(lines) ==> Section(lines + section).Some? && |Section(lines + section).value| > |section|
    decreases |lines|
  {
    if lines == "" {
      assert lines + section == section;
    } else {
      CutBefore(lines, section);
      var (line, rest) := CutLine(lines).value;
      assert lines == line + "\n" + rest;
      PrefixOfLines(lines, section);
      if !HasPrefix(lines, "$$") { SectionBehind(rest, section); }
    }
  }

  /** A line that begins like a section does so in front of anything. */
  lemma PrefixOfLines(lines: Bytes, after: Bytes)
    requires lines != "" && lines[|lines| - 1] == '\n'
    ensures HasPrefix(lines, "$$") <==> HasPrefix(lines + after, "$$")
  {
    if |lines| >= 2 {
      assert (lines + after)[..2] == lines[..2];
    } else {
      assert (lines + after)[0] == '\n';
      if |lines + after| >= 2 { assert (lines + after)[..2][0] == '\n' && "$$"[0] == '$'; }
    }
  }

  lemma {:induction false} NotMarkedByMore(lines: Bytes, more: Bytes)
    requires (lines != "" ==> lines[|lines| - 1] == '\n') && !Marked(more) && more != ""
    ensures Marked(lines + more) <==> Marked(lines)
    decreases |lines|
  {
    if lines == "" {
      assert lines + more == more;
    } else {
      CutBefore(lines, more);
      PrefixOfLines(lines, more);
      var (line, rest) := CutLine(lines).value;
      assert lines == line + "\n" + rest;
      NotMarkedByMore(rest, more);
    }
  }

  lemma AddedLines(isMain: bool)
    ensures !Marked((if isMain then "main\n" else "") + "\n\n")
  {
    CutFront("", "");
    assert "" + "\n" + "" == "\n" && !Marked("\n");
    CutFront("", "\n");
    assert "" + "\n" + "\n" == "\n\n" && !Marked("\n\n");
    if isMain {
      CutFront("main", "\n\n");
      assert "main" + "\n" + "\n\n" == "main\n" + "\n\n";
    } else {
      assert "" + "\n\n" == "\n\n";
    }
  }

  /** Reading a definition gives the payload back exactly when no line of the header
      behind its first begins like a section, which a header of one line never has. */
  lemma DefinitionIsRead(header: Bytes, isMain: bool, payload: Bytes)
    requires Definition(header, isMain, payload).Ok?
    ensures CutLine(header).Some?
    ensures UnifiedOf(Definition(header, isMain, payload).value) == Ok(payload) <==> !Marked(CutLine(header).value.1)
  {
    var more, section := (if isMain then "main\n" else "") + "\n\n", SECTION + payload + SECTION_END;
    CutBefore(header, more + section);
    var (first, rest) := CutLine(header).value;
    var def, lines := Definition(header, isMain, payload).value, rest + more;
    DefinitionText(header, if isMain then "main\n" else "", payload);
    FirstLine(header);
    AddedLines(isMain);
    NotMarkedByMore(rest, more);
    Assoc(rest, more, section);
    assert lines[|lines| - 1] == more[|more| - 1] == '\n';
    BehindLines(lines, section, payload);
    assert UnifiedOf(def) == ReadBehind(lines + section);
  }

  lemma DefinitionText(header: Bytes, extra: Bytes, payload: Bytes)
    ensures header + extra + "\n" + "\n$$B\nu" + payload + SECTION_END
            == header + ((extra + "\n\n") + (SECTION + payload + SECTION_END))
  {
    assert "\n" + "\n$$B\nu" == "\n\n" + SECTION;
    Regroup(header, extra, "\n", "\n$$B\nu", payload, SECTION_END, "\n\n", SECTION);
  }

  lemma Regroup(a: Bytes, b: Bytes, c: Bytes, d: Bytes, e: Bytes, f: Bytes, g: Bytes, h: Bytes)
    requires c + d == g + h
    ensures a + b + c + d + e + f == a + ((b + g) + (h + e + f))
  {
    Assoc(a + b, c, d);
    assert a + b + c + d == a + b + (g + h);
    Joined(a + b, g, h, e + f);
    assert a + b + (g + h) + e + f == a + b + (g + h + (e + f));
    assert g + h + (e + f) == g + (h + e + f);
    Joined(a, b, g + (h + e + f), "");
    Assoc(b, g, h + e + f);
  }

  lemma BehindLines(lines: Bytes, section: Bytes, payload: Bytes)
    requires lines != "" && lines[|lines| - 1] == '\n' && section == SECTION + payload + SECTION_END
    ensures ReadBehind(lines + section) == Ok(payload) <==> !Marked(lines)
  {
    assert section[..2] == "$$";
    SectionBehind(lines, section);
    if Marked(lines) {
      LongerPayload(Section(lines + section).value, section, payload);
    } else {
      SectionStarts(payload);
    }
  }

  /** The header's first line says that an object follows. */
  lemma FirstLine(header: Bytes)
    requires HasPrefix(header, "go object ") && CutLine(header).Some?
    ensures HasPrefix(CutLine(header).value.0, "go object ")
  {
    var (line, rest) := CutLine(header).value;
    assert header == line + "\n" + rest;
    var p := "go object ";
    assert forall i :: 0 <= i < 10 ==> p[i] != '\n';
    forall i | 0 <= i < 10 ensures header[i] != '\n' { assert header[..10][i] == p[i]; }
    assert header[|line|] == '\n' && header[..10] == line[..10];
  }

  /** What an early section gives, if anything, is longer than the payload. */
  lemma LongerPayload(found: Bytes, section: Bytes, payload: Bytes)
    requires section == SECTION + payload + SECTION_END && |found| > |section|
    ensures AfterSection(found) != Ok(payload)
  {
    if AfterSection(found).Ok? {
      var rest := CutLine(found).value.1;
      assert found == "$$B" + "\n" + rest;
      assert |AfterSection(found).value| == |rest| - 1 - |SECTION_END|;
    }
  }

  /** From an archive with a definition the reader gives back the payload that
      the writer put in, whatever the header, exactly when no line of the
      header after the first begins like a section. The size has to fit. */
  lemma ArchiveIsRead(header: Bytes, isMain: bool, payload: Bytes, code: Bytes)
    requires Definition(header, isMain, payload).Ok?
    requires |Definition(header, isMain, payload).value| < Power(10)
    ensures CutLine(header).Some?
    ensures PayloadOf(Written(Some(Definition(header, isMain, payload).value), code)) == Ok(payload)
            <==> !Marked(CutLine(header).value.1)
  {
    var def := Definition(header, isMain, payload).value;
    DefinitionIsRead(header, isMain, payload);
    var after := Member(OBJECT_MEMBER, code);
    var data := Written(Some(def), code);
    Assoc(MAGIC, Member(DEFINITION_MEMBER, def), after);
    DefinitionFirst(MAGIC, def, after);
    assert data[..|MAGIC|] == MAGIC;
  }

  /** A header of one line has no later line. */
  lemma OneLine(header: Bytes)
    requires header != "" && header[|header| - 1] == '\n' && '\n' !in header[..|header| - 1]
    ensures CutLine(header).Some? && CutLine(header).value.1 == "" && !Marked("")
  {
    assert header == header[..|header| - 1] + "\n" + "";
    CutFront(header[..|header| - 1], "");
  }

  const TWO_LINES: Bytes := "go object x" + "\n" + "$$\n"

  lemma TwoLinesAreAccepted(isMain: bool, payload: Bytes)
    ensures Definition(TWO_LINES, isMain, payload).Ok? && CutLine(TWO_LINES) == Some(("go object x", "$$\n")) && Marked("$$\n")
  {
    CutFront("go object x", "$$\n");
    assert TWO_LINES[..10] == "go object ";
    assert "$$\n"[..2] == "$$";
  }

  /** Such a header is one the writer accepts and the reader does not give the
      payload back from. */
  lemma SectionInHeader(isMain: bool, payload: Bytes, code: Bytes)
    ensures var def := Definition(TWO_LINES, isMain, payload);
            def.Ok? && (|def.value| < Power(10) ==> PayloadOf(Written(Some(def.value), code)) != Ok(payload))
  {
    TwoLinesAreAccepted(isMain, payload);
    if |Definition(TWO_LINES, isMain, payload).value| < Power(10) {
      ArchiveIsRead(TWO_LINES, isMain, payload, code);
    }
  }
}
