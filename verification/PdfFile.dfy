/** The PDF file both writers produce, and a reader that follows ISO 32000-1:2008: the last `startxref`
    (section 7.5.5), the 20-byte cross-reference entries (section 7.5.4), and from the catalog through the
    page tree to every content stream. A byte is written as the character with its code. */
module PdfFile {
  import opened Outcomes
  import opened Decimals
  import opened Texts

  // -------------------------------------------------------------- format

  const HEADER: string := "%PDF-1.4\n%\U{e2}\U{e3}\U{cf}\U{d3}\n"
  const FREE_ENTRY: string := "0000000000 65535 f \n"

  const END_OBJECT: string := "\nendobj\n"

  function ObjectText(num: nat, body: string): string {
    Dec(num) + (" 0 obj\n" + (body + END_OBJECT))
  }

  /** The bodies as objects 1, 2, ... */
  function Objects(bodies: seq<string>): string {
    if bodies == [] then ""
    else Objects(bodies[..|bodies| - 1]) + ObjectText(|bodies|, bodies[|bodies| - 1])
  }

  /** Where object `k + 1` starts. */
  function Offset(bodies: seq<string>, k: nat): nat
    requires k <= |bodies|
  {
    |HEADER| + |Objects(bodies[..k])|
  }

  function Entry(offset: nat): string {
    Pad(offset, 10) + " 00000 n \n"
  }

  function Entries(bodies: seq<string>): string {
    if bodies == [] then ""
    else Entries(bodies[..|bodies| - 1]) + Entry(Offset(bodies, |bodies| - 1))
  }

  /** The trailer dictionary, up to what `extra` adds to it. */
  function Trailer(size: nat, info: nat, extra: string): string {
    "trailer\n<< /Size "
    + (Dec(size) + (" /Root " + (Dec(1) + (" 0 R /Info " + (Dec(info) + (" 0 R" + (extra + " >>\n")))))))
  }

  function Ending(xref: nat): string {
    "startxref\n" + (Dec(xref) + "\n%%EOF\n")
  }

  function Tail(bodies: seq<string>, info: nat, extra: string): string {
    Trailer(|bodies| + 1, info, extra) + Ending(Offset(bodies, |bodies|))
  }

  function TableText(bodies: seq<string>): string {
    "xref\n0 " + (Dec(|bodies| + 1) + ("\n" + (FREE_ENTRY + Entries(bodies))))
  }

  function File(bodies: seq<string>, info: nat, extra: string): string {
    HEADER + Objects(bodies) + (TableText(bodies) + Tail(bodies, info, extra))
  }

  // ------------------------------------------------- documents of pages

  function Ref(num: nat): string {
    Dec(num) + " 0 R"
  }

  function Refs(nums: seq<nat>): string {
    if nums == [] then ""
    else if |nums| == 1 then Ref(nums[0])
    else Ref(nums[0]) + (" " + Refs(nums[1..]))
  }

  const CATALOG: string := "<< /Type /Catalog /Pages " + (Dec(2) + " 0 R >>")

  function PagesBody(kids: seq<nat>): string {
    "<< /Type /Pages /Kids [" + (Refs(kids) + ("] /Count " + (Dec(|kids|) + " >>")))
  }

  const CONTENTS_KEY: string := "/Contents "

  /** A page dictionary: its attributes, then the reference to its content. */
  function PageBody(attributes: string, content: nat): string {
    attributes + (CONTENTS_KEY + (Dec(content) + " 0 R >>"))
  }

  function ContentBody(stream: string): string {
    "<< /Length " + (Dec(|stream|) + (" >>\nstream\n" + (stream + "\nendstream")))
  }

  /** The page attributes cannot be taken for the key, and the bodies hold a catalog, a page tree over
      `kids`, and page `i` with its content stream. */
  predicate Holds(bodies: seq<string>, attributes: string, kids: seq<nat>, contents: seq<nat>, streams: seq<string>) {
    && CONTENTS_KEY[1] !in attributes
    && |bodies| >= 2 && bodies[0] == CATALOG && bodies[1] == PagesBody(kids)
    && |kids| == |streams| == |contents|
    && (forall i :: 0 <= i < |kids| ==>
          0 < kids[i] <= |bodies| && bodies[kids[i] - 1] == PageBody(attributes, contents[i]))
    && (forall i :: 0 <= i < |contents| ==>
          0 < contents[i] <= |bodies| && bodies[contents[i] - 1] == ContentBody(streams[i]))
  }

  // -------------------------------------------------------------- reader

  predicate At(s: string, i: nat, pattern: string) {
    i + |pattern| <= |s| && s[i..i + |pattern|] == pattern
  }

  /** The last place, at `k` or before, where `pattern` occurs. */
  function LastAt(s: string, pattern: string, k: nat): (r: Option<nat>)
    ensures r.Some? ==> At(s, r.value, pattern)
  {
    if At(s, k, pattern) then Some(k) else if k == 0 then None else LastAt(s, pattern, k - 1)
  }

  function Skip(s: string, pattern: string): Option<string> {
    if pattern <= s then Some(s[|pattern|..]) else None
  }

  /** The text behind the first occurrence of `pattern`. */
  function Seek(s: string, pattern: string): Option<string> {
    if pattern <= s then Some(s[|pattern|..]) else if s == "" then None else Seek(s[1..], pattern)
  }

  function StartOfTable(file: string): Option<nat> {
    var at :- LastAt(file, "startxref\n", |file|);
    var number :- Skip(file[at..], "startxref\n");
    var (xref, rest) :- ReadNat(number);
    var _ :- Check(rest == "\n%%EOF\n");
    Some(xref)
  }

  /** The number of entries, and the text that starts with them. */
  datatype Table = Table(count: nat, text: string)

  function ReadTable(file: string): Option<Table> {
    var xref :- StartOfTable(file);
    var _ :- Check(xref <= |file|);
    var number :- Skip(file[xref..], "xref\n0 ");
    var (count, rest) :- ReadNat(number);
    var text :- Skip(rest, "\n");
    Some(Table(count, text))
  }

  /** The entries of the trailer that name the size, the catalog and the information object, and what follows
      them. */
  function ReadTrailer(table: Table): Option<(nat, nat, nat, string)> {
    var _ :- Check(20 * table.count <= |table.text|);
    var rest :- Skip(table.text[20 * table.count..], "trailer\n<< /Size ");
    var (size, rest) :- ReadNat(rest);
    var rest :- Skip(rest, " /Root ");
    var (root, rest) :- ReadNat(rest);
    var rest :- Skip(rest, " 0 R /Info ");
    var (info, rest) :- ReadNat(rest);
    var rest :- Skip(rest, " 0 R");
    Some((size, root, info, rest))
  }

  function ReadEntry(entry: string): Option<nat>
    requires |entry| == 20
  {
    var _ :- Check(Digits(entry[..10]) && entry[10..] == " 00000 n \n");
    Some(Value(entry[..10]))
  }

  /** The text that starts with the body of object `num`, found through entry `num` of the table. */
  function Find(file: string, table: Table, num: nat): Option<string> {
    var _ :- Check(0 < num < table.count && 20 * num + 20 <= |table.text|);
    var offset :- ReadEntry(table.text[20 * num..20 * num + 20]);
    var _ :- Check(offset <= |file|);
    var (found, rest) :- ReadNat(file[offset..]);
    var _ :- Check(found == num);
    Skip(rest, " 0 obj\n")
  }

  function ReadRefs(s: string): Option<(seq<nat>, string)>
    decreases |s|
  {
    if "]" <= s then Some(([], s[1..]))
    else
      var (num, rest) :- ReadNat(s);
      var rest :- Skip(rest, " 0 R");
      if "]" <= rest then Some(([num], rest[1..]))
      else
        var rest :- Skip(rest, " ");
        var (more, rest) :- ReadRefs(rest);
        Some(([num] + more, rest))
  }

  function ReadStream(file: string, table: Table, page: nat): Option<string> {
    var body :- Find(file, table, page);
    var reference :- Seek(body, CONTENTS_KEY);
    var (content, rest) :- ReadNat(reference);
    var rest :- Skip(rest, " 0 R >>");
    var _ :- Check(END_OBJECT <= rest);
    var body :- Find(file, table, content);
    var number :- Skip(body, "<< /Length ");
    var (length, rest) :- ReadNat(number);
    var data :- Skip(rest, " >>\nstream\n");
    var _ :- Check(length <= |data|);
    var rest :- Skip(data[length..], "\nendstream");
    var _ :- Check(END_OBJECT <= rest);
    Some(data[..length])
  }

  function ReadStreams(file: string, table: Table, kids: seq<nat>): Option<seq<string>> {
    if kids == [] then Some([])
    else
      var first :- ReadStream(file, table, kids[0]);
      var others :- ReadStreams(file, table, kids[1..]);
      Some([first] + others)
  }

  function ReadKids(file: string, table: Table, root: nat): Option<seq<nat>> {
    var catalog :- Find(file, table, root);
    var reference :- Skip(catalog, "<< /Type /Catalog /Pages ");
    var (pages, rest) :- ReadNat(reference);
    var rest :- Skip(rest, " 0 R >>");
    var _ :- Check(END_OBJECT <= rest);
    var tree :- Find(file, table, pages);
    var list :- Skip(tree, "<< /Type /Pages /Kids [");
    var (kids, rest) :- ReadRefs(list);
    var number :- Skip(rest, " /Count ");
    var (count, rest) :- ReadNat(number);
    var rest :- Skip(rest, " >>");
    var _ :- Check(END_OBJECT <= rest && count == |kids|);
    Some(kids)
  }

  /** The file says that it is a PDF file, and one that holds bytes beyond text. */
  predicate Introduced(file: string) {
    && "%PDF-1.4\n%" <= file && |file| > 14
    && (forall i :: 10 <= i < 14 ==> file[i] as int >= 128) && file[14] == '\n'
  }

  /** The content streams of all pages, reached from the end of the file. */
  function ReadPages(file: string): Option<seq<string>> {
    var _ :- Check(Introduced(file));
    var table :- ReadTable(file);
    var _ :- Check("0000000000 65535 f \n" <= table.text);
    var (size, root, _, _) :- ReadTrailer(table);
    var _ :- Check(size == table.count);
    var kids :- ReadKids(file, table, root);
    ReadStreams(file, table, kids)
  }

  // -------------------------------------------------- finding one's way

  lemma SkipOver(pattern: string, rest: string)
    ensures Skip(pattern + rest, pattern) == Some(rest)
    ensures (pattern + rest)[|pattern|..] == rest
  {
  }

  lemma Split(front: string, s: string)
    requires front <= s
    ensures s == front + s[|front|..]
  {
  }

  /** Reading past `lead`, a numeral and `next` leaves what follows. */
  lemma TakeNumeral(lead: string, n: nat, next: string, rest: string)
    requires next != "" && !IsDigit(next[0])
    ensures Skip(lead + (Dec(n) + (next + rest)), lead) == Some(Dec(n) + (next + rest))
    ensures ReadNat(Dec(n) + (next + rest)) == Some((n, next + rest))
    ensures Skip(next + rest, next) == Some(rest)
  {
    SkipOver(lead, Dec(n) + (next + rest));
    ReadBack(n, next + rest);
    SkipOver(next, rest);
  }

  lemma Regroup(a: string, b: string, c: string, d: string)
    ensures (a + (b + c)) + d == a + (b + (c + d))
  {
  }

  lemma AtAppend(a: string, pattern: string, b: string)
    ensures At(a + pattern + b, |a|, pattern)
    ensures (a + pattern + b)[|a|..] == pattern + b
  {
  }

  lemma AtWithin(a: string, s: string, b: string, i: nat, pattern: string)
    requires At(s, i, pattern)
    ensures At(a + s + b, |a| + i, pattern)
  {
    assert (a + s + b)[|a| + i..|a| + i + |pattern|] == s[i..i + |pattern|];
  }

  lemma {:induction false} LastIs(s: string, pattern: string, i: nat, k: nat)
    requires i <= k && At(s, i, pattern)
    requires forall j :: i < j <= k ==> !At(s, j, pattern)
    ensures LastAt(s, pattern, k) == Some(i)
  {
    if i < k {
      LastIs(s, pattern, i, k - 1);
    }
  }

  /** The last `startxref` of a file is the one its ending wrote. */
  lemma EndingFound(front: string, xref: nat)
    ensures StartOfTable(front + Ending(xref)) == Some(xref)
  {
    var file, at := front + Ending(xref), |front|;
    assert file[at..] == Ending(xref);
    SkipOver("startxref\n", Dec(xref) + "\n%%EOF\n");
    assert At(file, at, "startxref\n");
    forall j | at < j <= |file|
      ensures !At(file, j, "startxref\n")
    {
      if j + |"startxref\n"| <= |file| {
        assert file[j] == Ending(xref)[j - at];
        assert Ending(xref)[j - at] != 's';
        assert file[j..j + |"startxref\n"|][0] == file[j];
      }
    }
    LastIs(file, "startxref\n", at, |file|);
    ReadBack(xref, "\n%%EOF\n");
  }

  // --------------------------------------------------------- the objects

  lemma {:induction false} ObjectAt(bodies: seq<string>, k: nat)
    requires k < |bodies|
    ensures At(Objects(bodies), |Objects(bodies[..k])|, ObjectText(k + 1, bodies[k]))
  {
    var front := bodies[..|bodies| - 1];
    var last := ObjectText(|bodies|, bodies[|bodies| - 1]);
    if k == |bodies| - 1 {
      assert Objects(bodies) == Objects(front) + last + "";
      AtAppend(Objects(front), last, "");
    } else {
      ObjectAt(front, k);
      assert front[..k] == bodies[..k];
      assert Objects(bodies) == "" + Objects(front) + last;
      AtWithin("", Objects(front), last, |Objects(bodies[..k])|, ObjectText(k + 1, bodies[k]));
    }
  }

  lemma {:induction false} OffsetsGrow(bodies: seq<string>, j: nat, k: nat)
    requires j <= k <= |bodies|
    ensures Offset(bodies, j) <= Offset(bodies, k)
  {
    if j < k {
      OffsetsGrow(bodies, j, k - 1);
      assert bodies[..k][..k - 1] == bodies[..k - 1];
    }
  }

  // ----------------------------------------------------------- the table

  /** An entry is 20 bytes long exactly when its offset has at most ten digits. */
  lemma EntryLength(offset: nat)
    ensures |Entry(offset)| >= 20
    ensures |Entry(offset)| == 20 <==> offset < Power10(10)
  {
    DecLength(offset, 10);
  }

  lemma EntryReadBack(offset: nat)
    requires offset < Power10(10)
    ensures |Entry(offset)| == 20 && ReadEntry(Entry(offset)) == Some(offset)
  {
    EntryLength(offset);
    ValueOfPad(offset, 10);
    assert Entry(offset)[..10] == Pad(offset, 10);
    assert Entry(offset)[10..] == " 00000 n \n";
  }

  lemma {:induction false} EntriesLength(bodies: seq<string>)
    requires bodies != [] ==> Offset(bodies, |bodies| - 1) < Power10(10)
    ensures |Entries(bodies)| == 20 * |bodies|
  {
    if bodies != [] {
      var n := |bodies| - 1;
      EntryLength(Offset(bodies, n));
      if n > 0 {
        OffsetsGrow(bodies, n - 1, n);
        assert bodies[..n][..n - 1] == bodies[..n - 1];
      }
      EntriesLength(bodies[..n]);
    }
  }

  lemma ChunkOf(front: string, chunk: string, k: nat)
    requires 20 * k + 20 <= |front|
    ensures (front + chunk)[20 * k..20 * k + 20] == front[20 * k..20 * k + 20]
  {
  }

  lemma ChunkMiddle(first: string, s: string, rest: string, k: nat)
    requires |first| == 20 && 20 * k + 20 <= |s|
    ensures (first + s + rest)[20 * (k + 1)..20 * (k + 1) + 20] == s[20 * k..20 * k + 20]
  {
  }

  lemma ChunkLast(front: string, chunk: string)
    requires |chunk| == 20
    ensures (front + chunk)[|front|..|front| + 20] == chunk
  {
  }

  lemma {:induction false} EntriesAt(bodies: seq<string>, k: nat)
    requires k < |bodies| && Offset(bodies, |bodies| - 1) < Power10(10)
    ensures 20 * k + 20 <= |Entries(bodies)|
    ensures Entries(bodies)[20 * k..20 * k + 20] == Entry(Offset(bodies, k))
  {
    var n := |bodies| - 1;
    var front := bodies[..n];
    var last := Entry(Offset(bodies, n));
    EntriesLength(bodies);
    EntryLength(Offset(bodies, n));
    assert |Entries(front)| == 20 * n;
    if k == n {
      ChunkLast(Entries(front), last);
    } else {
      OffsetsGrow(bodies, n - 1, n);
      assert front[..n - 1] == bodies[..n - 1] && front[..k] == bodies[..k];
      EntriesAt(front, k);
      ChunkOf(Entries(front), last, k);
    }
  }

  /** The table has 20 bytes for every object, as section 7.5.4 demands, exactly as long as the last object
      starts within the first 10^10 bytes. */
  lemma {:induction false} TableAlignedIff(bodies: seq<string>)
    requires bodies != []
    ensures |Entries(bodies)| == 20 * |bodies| <==> Offset(bodies, |bodies| - 1) < Power10(10)
  {
    EntriesLong(bodies[..|bodies| - 1]);
    EntryLength(Offset(bodies, |bodies| - 1));
    if Offset(bodies, |bodies| - 1) < Power10(10) {
      EntriesLength(bodies);
    }
  }

  lemma {:induction false} EntriesLong(bodies: seq<string>)
    ensures |Entries(bodies)| >= 20 * |bodies|
  {
    if bodies != [] {
      EntriesLong(bodies[..|bodies| - 1]);
      EntryLength(Offset(bodies, |bodies| - 1));
    }
  }

  // ------------------------------------------------- the file read back

  /** The text a reader of the table is left with. */
  function AfterTableHeader(bodies: seq<string>, info: nat, extra: string): string {
    FREE_ENTRY + Entries(bodies) + Tail(bodies, info, extra)
  }

  function TableOf(bodies: seq<string>, info: nat, extra: string): Table {
    Table(|bodies| + 1, AfterTableHeader(bodies, info, extra))
  }

  lemma FileEnds(bodies: seq<string>, info: nat, extra: string)
    ensures StartOfTable(File(bodies, info, extra)) == Some(Offset(bodies, |bodies|))
  {
    var front, trailer := HEADER + Objects(bodies), Trailer(|bodies| + 1, info, extra);
    var ending := Ending(Offset(bodies, |bodies|));
    EndingFound(front + (TableText(bodies) + trailer), Offset(bodies, |bodies|));
    Assoc(front, TableText(bodies) + trailer, ending);
    Assoc(TableText(bodies), trailer, ending);
  }

  lemma TableFound(bodies: seq<string>, info: nat, extra: string)
    ensures ReadTable(File(bodies, info, extra)) == Some(TableOf(bodies, info, extra))
  {
    FileEnds(bodies, info, extra);
    assert bodies[..|bodies|] == bodies;
    var tail := Tail(bodies, info, extra);
    var entries := FREE_ENTRY + Entries(bodies);
    SkipOver(HEADER + Objects(bodies), TableText(bodies) + tail);
    Regroup("xref\n0 ", Dec(|bodies| + 1), "\n" + entries, tail);
    Assoc("\n", entries, tail);
    TakeNumeral("xref\n0 ", |bodies| + 1, "\n", entries + tail);
  }

  lemma TrailerRead(size: nat, info: nat, extra: string, ending: string)
    ensures var rest := Skip(Trailer(size, info, extra) + ending, "trailer\n<< /Size ");
      && rest.Some? && ReadNat(rest.value).Some? && ReadNat(rest.value).value.0 == size
      && var rest := Skip(ReadNat(rest.value).value.1, " /Root ");
      && rest.Some? && ReadNat(rest.value).Some? && ReadNat(rest.value).value.0 == 1
      && var rest := Skip(ReadNat(rest.value).value.1, " 0 R /Info ");
      && rest.Some? && ReadNat(rest.value).Some? && ReadNat(rest.value).value.0 == info
      && Skip(ReadNat(rest.value).value.1, " 0 R") == Some(extra + " >>\n" + ending)
  {
    var e := extra + " >>\n";
    var i := Dec(info) + (" 0 R" + e);
    var r := Dec(1) + (" 0 R /Info " + i);
    Regroup("trailer\n<< /Size ", Dec(size), " /Root " + r, ending);
    Regroup(" /Root ", Dec(1), " 0 R /Info " + i, ending);
    Regroup(" 0 R /Info ", Dec(info), " 0 R" + e, ending);
    Assoc(" 0 R", e, ending);
    TakeNumeral("trailer\n<< /Size ", size, " /Root ",
                Dec(1) + (" 0 R /Info " + (Dec(info) + (" 0 R" + (e + ending)))));
    TakeNumeral(" /Root ", 1, " 0 R /Info ", Dec(info) + (" 0 R" + (e + ending)));
    TakeNumeral(" 0 R /Info ", info, " 0 R", e + ending);
    SkipOver(" 0 R", e + ending);
  }

  /** What follows the entries in the trailer: the additions, and the end of the file. */
  function TrailerRest(bodies: seq<string>, extra: string): string {
    extra + " >>\n" + Ending(Offset(bodies, |bodies|))
  }

  lemma TrailerFound(bodies: seq<string>, info: nat, extra: string)
    requires bodies != [] && Offset(bodies, |bodies| - 1) < Power10(10)
    ensures ReadTrailer(TableOf(bodies, info, extra)) == Some((|bodies| + 1, 1, info, TrailerRest(bodies, extra)))
  {
    EntriesLength(bodies);
    SkipOver(FREE_ENTRY + Entries(bodies), Tail(bodies, info, extra));
    TrailerRead(|bodies| + 1, info, extra, Ending(Offset(bodies, |bodies|)));
  }

  /** Entry `num` of the table leads to "num 0 obj" followed by exactly `body` and "endobj". */
  predicate Found(file: string, table: Table, num: nat, body: string) {
    Find(file, table, num).Some? && body + END_OBJECT <= Find(file, table, num).value
  }

  /** Entry `num` of the table holds `offset`. */
  predicate Leads(table: Table, num: nat, offset: nat) {
    && 0 < num < table.count && 20 * num + 20 <= |table.text|
    && ReadEntry(table.text[20 * num..20 * num + 20]) == Some(offset)
  }

  lemma EntryFound(bodies: seq<string>, info: nat, extra: string, k: nat)
    requires k < |bodies| && Offset(bodies, |bodies| - 1) < Power10(10)
    ensures Leads(TableOf(bodies, info, extra), k + 1, Offset(bodies, k))
  {
    EntriesLength(bodies);
    EntriesAt(bodies, k);
    OffsetsGrow(bodies, k, |bodies| - 1);
    EntryReadBack(Offset(bodies, k));
    ChunkMiddle(FREE_ENTRY, Entries(bodies), Tail(bodies, info, extra), k);
  }

  lemma ObjectInFile(bodies: seq<string>, info: nat, extra: string, k: nat)
    requires k < |bodies|
    ensures At(File(bodies, info, extra), Offset(bodies, k), ObjectText(k + 1, bodies[k]))
  {
    ObjectAt(bodies, k);
    AtWithin(HEADER, Objects(bodies), TableText(bodies) + Tail(bodies, info, extra), |Objects(bodies[..k])|,
             ObjectText(k + 1, bodies[k]));
  }

  lemma ObjectRead(num: nat, body: string, after: string)
    ensures ReadNat(ObjectText(num, body) + after) == Some((num, " 0 obj\n" + (body + END_OBJECT + after)))
    ensures Skip(" 0 obj\n" + (body + END_OBJECT + after), " 0 obj\n") == Some(body + END_OBJECT + after)
  {
    Assoc(Dec(num), " 0 obj\n" + (body + END_OBJECT), after);
    Assoc(" 0 obj\n", body + END_OBJECT, after);
    TakeNumeral("", num, " 0 obj\n", body + END_OBJECT + after);
  }

  /** The table agrees with the bytes: entry `k + 1` leads to object `k + 1`. */
  lemma ObjectFound(bodies: seq<string>, info: nat, extra: string, k: nat)
    requires k < |bodies| && Offset(bodies, |bodies| - 1) < Power10(10)
    ensures Found(File(bodies, info, extra), TableOf(bodies, info, extra), k + 1, bodies[k])
  {
    EntryFound(bodies, info, extra, k);
    ObjectInFile(bodies, info, extra, k);
    WrittenObjectFound(File(bodies, info, extra), TableOf(bodies, info, extra), k + 1, bodies[k], Offset(bodies, k));
  }

  lemma WrittenObjectFound(file: string, table: Table, num: nat, body: string, offset: nat)
    requires Leads(table, num, offset)
    requires At(file, offset, ObjectText(num, body))
    ensures Found(file, table, num, body)
  {
    var text, written := file[offset..], ObjectText(num, body);
    Split(written, text);
    ObjectRead(num, body, text[|written|..]);
  }

  lemma LastRefReads(num: nat, rest: string)
    ensures ReadRefs(Ref(num) + ("]" + rest)) == Some(([num], rest))
  {
    var s := Ref(num) + ("]" + rest);
    Assoc(Dec(num), " 0 R", "]" + rest);
    TakeNumeral("", num, " 0 R", "]" + rest);
    SkipOver("]", rest);
    assert s[0] == Dec(num)[0];
  }

  lemma FirstRefReads(num: nat, more: string, others: (seq<nat>, string))
    requires ReadRefs(more) == Some(others)
    ensures ReadRefs(Ref(num) + (" " + more)) == Some(([num] + others.0, others.1))
  {
    var s := Ref(num) + (" " + more);
    Assoc(Dec(num), " 0 R", " " + more);
    TakeNumeral("", num, " 0 R", " " + more);
    SkipOver(" ", more);
    assert s[0] == Dec(num)[0] && (" " + more)[0] == ' ';
  }

  lemma {:induction false} RefsReadBack(nums: seq<nat>, rest: string)
    ensures ReadRefs(Refs(nums) + ("]" + rest)) == Some((nums, rest))
  {
    if nums == [] {
      SkipOver("]", rest);
      assert Refs(nums) + ("]" + rest) == "]" + rest;
    } else if |nums| == 1 {
      LastRefReads(nums[0], rest);
      assert nums == [nums[0]];
    } else {
      RefsReadBack(nums[1..], rest);
      Regroup(Ref(nums[0]), " ", Refs(nums[1..]), "]" + rest);
      FirstRefReads(nums[0], Refs(nums[1..]) + ("]" + rest), (nums[1..], rest));
      assert nums == [nums[0]] + nums[1..];
    }
  }

  lemma CatalogReadBack(file: string, table: Table)
    requires Found(file, table, 1, CATALOG)
    ensures var reference := Skip(Find(file, table, 1).value, "<< /Type /Catalog /Pages ");
      && reference.Some? && ReadNat(reference.value).Some? && ReadNat(reference.value).value.0 == 2
      && var rest := Skip(ReadNat(reference.value).value.1, " 0 R >>");
      && rest.Some? && END_OBJECT <= rest.value
  {
    var text := Find(file, table, 1).value;
    var after := text[|CATALOG + END_OBJECT|..];
    Split(CATALOG + END_OBJECT, text);
    Assoc(CATALOG, END_OBJECT, after);
    Regroup("<< /Type /Catalog /Pages ", Dec(2), " 0 R >>", END_OBJECT + after);
    TakeNumeral("<< /Type /Catalog /Pages ", 2, " 0 R >>", END_OBJECT + after);
  }

  lemma PagesReadBack(file: string, table: Table, kids: seq<nat>)
    requires Found(file, table, 2, PagesBody(kids))
    ensures var list := Skip(Find(file, table, 2).value, "<< /Type /Pages /Kids [");
      && list.Some? && ReadRefs(list.value).Some? && ReadRefs(list.value).value.0 == kids
      && var number := Skip(ReadRefs(list.value).value.1, " /Count ");
      && number.Some? && ReadNat(number.value).Some? && ReadNat(number.value).value.0 == |kids|
      && var rest := Skip(ReadNat(number.value).value.1, " >>");
      && rest.Some? && END_OBJECT <= rest.value
  {
    var text := Find(file, table, 2).value;
    var after := text[|PagesBody(kids) + END_OBJECT|..];
    Split(PagesBody(kids) + END_OBJECT, text);
    Assoc(PagesBody(kids), END_OBJECT, after);
    PagesBodyReads(kids, END_OBJECT + after);
  }

  lemma PagesBodyReads(kids: seq<nat>, end: string)
    ensures var count := " /Count " + (Dec(|kids|) + (" >>" + end));
      && Skip(PagesBody(kids) + end, "<< /Type /Pages /Kids [") == Some(Refs(kids) + ("]" + count))
      && ReadRefs(Refs(kids) + ("]" + count)) == Some((kids, count))
      && Skip(count, " /Count ") == Some(Dec(|kids|) + (" >>" + end))
      && ReadNat(Dec(|kids|) + (" >>" + end)) == Some((|kids|, " >>" + end))
      && Skip(" >>" + end, " >>") == Some(end)
  {
    var tally := " /Count " + (Dec(|kids|) + " >>");
    assert PagesBody(kids) == "<< /Type /Pages /Kids [" + (Refs(kids) + ("]" + tally)) by {
      CountLabel(Dec(|kids|) + " >>");
    }
    Regroup("<< /Type /Pages /Kids [", Refs(kids), "]" + tally, end);
    Assoc("]", tally, end);
    Regroup(" /Count ", Dec(|kids|), " >>", end);
    var count := " /Count " + (Dec(|kids|) + (" >>" + end));
    SkipOver("<< /Type /Pages /Kids [", Refs(kids) + ("]" + count));
    RefsReadBack(kids, count);
    TakeNumeral(" /Count ", |kids|, " >>", end);
  }

  lemma CountLabel(rest: string)
    ensures "] /Count " + rest == "]" + (" /Count " + rest)
  {
    assert "] /Count " == "]" + " /Count ";
  }

  lemma KidsReadBack(file: string, table: Table, kids: seq<nat>)
    requires Found(file, table, 1, CATALOG) && Found(file, table, 2, PagesBody(kids))
    ensures ReadKids(file, table, 1) == Some(kids)
  {
    CatalogReadBack(file, table);
    PagesReadBack(file, table, kids);
  }

  /** The first place where the key can occur is where it was put. */
  lemma {:induction false} SeekOver(front: string, pattern: string, rest: string)
    requires |pattern| >= 2 && pattern[0] != pattern[1] && pattern[1] !in front
    ensures Seek(front + (pattern + rest), pattern) == Some(rest)
  {
    var s := front + (pattern + rest);
    if front == "" {
      assert s == pattern + rest;
      SkipOver(pattern, rest);
    } else {
      assert s[1] == if |front| > 1 then front[1] else pattern[0];
      assert s[1..] == front[1..] + (pattern + rest);
      SeekOver(front[1..], pattern, rest);
    }
  }

  lemma PageReadBack(text: string, attributes: string, content: nat)
    requires CONTENTS_KEY[1] !in attributes && PageBody(attributes, content) + END_OBJECT <= text
    ensures var reference := Seek(text, CONTENTS_KEY);
      && reference.Some? && ReadNat(reference.value).Some? && ReadNat(reference.value).value.0 == content
      && var rest := Skip(ReadNat(reference.value).value.1, " 0 R >>");
      && rest.Some? && END_OBJECT <= rest.value
  {
    var after := text[|PageBody(attributes, content) + END_OBJECT|..];
    var end := END_OBJECT + after;
    Split(PageBody(attributes, content) + END_OBJECT, text);
    Assoc(PageBody(attributes, content), END_OBJECT, after);
    Assoc(attributes, CONTENTS_KEY + (Dec(content) + " 0 R >>"), end);
    Regroup(CONTENTS_KEY, Dec(content), " 0 R >>", end);
    SeekOver(attributes, CONTENTS_KEY, Dec(content) + (" 0 R >>" + end));
    TakeNumeral(CONTENTS_KEY, content, " 0 R >>", end);
  }

  lemma DataReadBack(text: string, stream: string)
    requires ContentBody(stream) + END_OBJECT <= text
    ensures var number := Skip(text, "<< /Length ");
      && number.Some? && ReadNat(number.value).Some? && ReadNat(number.value).value.0 == |stream|
      && var data := Skip(ReadNat(number.value).value.1, " >>\nstream\n");
      && data.Some? && |stream| <= |data.value| && data.value[..|stream|] == stream
      && var rest := Skip(data.value[|stream|..], "\nendstream");
      && rest.Some? && END_OBJECT <= rest.value
  {
    var after := text[|ContentBody(stream) + END_OBJECT|..];
    var end := END_OBJECT + after;
    Split(ContentBody(stream) + END_OBJECT, text);
    Assoc(ContentBody(stream), END_OBJECT, after);
    Regroup("<< /Length ", Dec(|stream|), " >>\nstream\n" + (stream + "\nendstream"), end);
    Regroup(" >>\nstream\n", stream, "\nendstream", end);
    TakeNumeral("<< /Length ", |stream|, " >>\nstream\n", stream + ("\nendstream" + end));
    SkipOver(stream, "\nendstream" + end);
    SkipOver("\nendstream", end);
  }

  lemma StreamReadBack(file: string, table: Table, attributes: string, page: nat, content: nat, stream: string)
    requires CONTENTS_KEY[1] !in attributes
    requires Found(file, table, page, PageBody(attributes, content))
    requires Found(file, table, content, ContentBody(stream))
    ensures ReadStream(file, table, page) == Some(stream)
  {
    PageReadBack(Find(file, table, page).value, attributes, content);
    DataReadBack(Find(file, table, content).value, stream);
  }

  predicate StreamsFound(file: string, table: Table, attributes: string, kids: seq<nat>, contents: seq<nat>,
                         streams: seq<string>) {
    && |kids| == |contents| == |streams|
    && (forall i :: 0 <= i < |kids| ==> Found(file, table, kids[i], PageBody(attributes, contents[i])))
    && (forall i :: 0 <= i < |contents| ==> Found(file, table, contents[i], ContentBody(streams[i])))
  }

  predicate AllRead(file: string, table: Table, kids: seq<nat>, streams: seq<string>) {
    |kids| == |streams| && forall i :: 0 <= i < |kids| ==> ReadStream(file, table, kids[i]) == Some(streams[i])
  }

  lemma AllReadRest(file: string, table: Table, kids: seq<nat>, streams: seq<string>)
    requires AllRead(file, table, kids, streams) && kids != []
    ensures AllRead(file, table, kids[1..], streams[1..])
  {
  }

  lemma {:induction false} ReadAll(file: string, table: Table, kids: seq<nat>, streams: seq<string>)
    requires AllRead(file, table, kids, streams)
    ensures ReadStreams(file, table, kids) == Some(streams)
  {
    if kids != [] {
      AllReadRest(file, table, kids, streams);
      ReadAll(file, table, kids[1..], streams[1..]);
      ReadStreamsStep(file, table, kids, streams[0], streams[1..]);
      assert streams == [streams[0]] + streams[1..];
    }
  }

  lemma ReadStreamsStep(file: string, table: Table, kids: seq<nat>, first: string, others: seq<string>)
    requires kids != [] && ReadStream(file, table, kids[0]) == Some(first)
    requires ReadStreams(file, table, kids[1..]) == Some(others)
    ensures ReadStreams(file, table, kids) == Some([first] + others)
  {
  }

  lemma StreamsReadBack(file: string, table: Table, attributes: string, kids: seq<nat>, contents: seq<nat>,
                        streams: seq<string>)
    requires CONTENTS_KEY[1] !in attributes && StreamsFound(file, table, attributes, kids, contents, streams)
    ensures ReadStreams(file, table, kids) == Some(streams)
  {
    forall i | 0 <= i < |kids|
      ensures ReadStream(file, table, kids[i]) == Some(streams[i])
    {
      StreamReadBack(file, table, attributes, kids[i], contents[i], streams[i]);
    }
    ReadAll(file, table, kids, streams);
  }

  lemma PagesFound(bodies: seq<string>, info: nat, extra: string, attributes: string,
                   kids: seq<nat>, contents: seq<nat>, streams: seq<string>)
    requires Holds(bodies, attributes, kids, contents, streams)
    requires Offset(bodies, |bodies| - 1) < Power10(10)
    ensures var file, table := File(bodies, info, extra), TableOf(bodies, info, extra);
      && (forall i :: 0 <= i < |kids| ==> Found(file, table, kids[i], PageBody(attributes, contents[i])))
      && (forall i :: 0 <= i < |contents| ==> Found(file, table, contents[i], ContentBody(streams[i])))
  {
    forall i | 0 <= i < |kids|
      ensures Found(File(bodies, info, extra), TableOf(bodies, info, extra), kids[i], PageBody(attributes, contents[i]))
    {
      ObjectFound(bodies, info, extra, kids[i] - 1);
    }
    forall i | 0 <= i < |contents|
      ensures Found(File(bodies, info, extra), TableOf(bodies, info, extra), contents[i], ContentBody(streams[i]))
    {
      ObjectFound(bodies, info, extra, contents[i] - 1);
    }
  }

  lemma KidsFound(bodies: seq<string>, info: nat, extra: string, kids: seq<nat>)
    requires |bodies| >= 2 && bodies[0] == CATALOG && bodies[1] == PagesBody(kids)
    requires Offset(bodies, |bodies| - 1) < Power10(10)
    ensures ReadKids(File(bodies, info, extra), TableOf(bodies, info, extra), 1) == Some(kids)
  {
    ObjectFound(bodies, info, extra, 0);
    ObjectFound(bodies, info, extra, 1);
    KidsReadBack(File(bodies, info, extra), TableOf(bodies, info, extra), kids);
  }

  lemma FileIntroduced(bodies: seq<string>, info: nat, extra: string)
    ensures Introduced(File(bodies, info, extra))
  {
    var file := File(bodies, info, extra);
    assert |HEADER| == 15 && file[..15] == HEADER;
    assert forall i :: 0 <= i < 15 ==> file[i] == HEADER[i];
    assert file[..10] == "%PDF-1.4\n%";
  }

  lemma FreeEntryFirst(bodies: seq<string>, info: nat, extra: string)
    ensures "0000000000 65535 f \n" <= TableOf(bodies, info, extra).text
  {
    Assoc(FREE_ENTRY, Entries(bodies), Tail(bodies, info, extra));
  }

  /** From its end the file leads to the table, and the table to the catalog and the information object. */
  lemma FileOpens(bodies: seq<string>, info: nat, extra: string)
    requires bodies != [] && Offset(bodies, |bodies| - 1) < Power10(10)
    ensures ReadTable(File(bodies, info, extra)) == Some(TableOf(bodies, info, extra))
    ensures ReadTrailer(TableOf(bodies, info, extra)) == Some((|bodies| + 1, 1, info, TrailerRest(bodies, extra)))
  {
    TableFound(bodies, info, extra);
    TrailerFound(bodies, info, extra);
  }

  lemma ReadPagesSteps(file: string, table: Table, info: nat, rest: string, kids: seq<nat>, streams: seq<string>)
    requires Introduced(file) && "0000000000 65535 f \n" <= table.text
    requires ReadTable(file) == Some(table) && ReadTrailer(table) == Some((table.count, 1, info, rest))
    requires ReadKids(file, table, 1) == Some(kids) && ReadStreams(file, table, kids) == Some(streams)
    ensures ReadPages(file) == Some(streams)
  {
  }

  /** A reader agrees with the writer: from the last `startxref` of the file, through the table, the
      trailer, the catalog and the page tree, it finds exactly the content streams, in page order. */
  lemma ReaderAgrees(bodies: seq<string>, info: nat, extra: string, attributes: string,
                     kids: seq<nat>, contents: seq<nat>, streams: seq<string>)
    requires Holds(bodies, attributes, kids, contents, streams)
    requires Offset(bodies, |bodies| - 1) < Power10(10)
    ensures ReadPages(File(bodies, info, extra)) == Some(streams)
  {
    var file, table := File(bodies, info, extra), TableOf(bodies, info, extra);
    FileIntroduced(bodies, info, extra);
    FreeEntryFirst(bodies, info, extra);
    TableFound(bodies, info, extra);
    TrailerFound(bodies, info, extra);
    KidsFound(bodies, info, extra, kids);
    PagesFound(bodies, info, extra, attributes, kids, contents, streams);
    StreamsReadBack(file, table, attributes, kids, contents, streams);
    ReadPagesSteps(file, table, info, TrailerRest(bodies, extra), kids, streams);
  }

  /** The bodies make up a document with these content streams. */
  ghost predicate Documents(bodies: seq<string>, streams: seq<string>) {
    exists attributes, kids, contents :: Holds(bodies, attributes, kids, contents, streams)
  }

  /** The last object starts where a ten-digit offset can point. */
  predicate Addressable(bodies: seq<string>) {
    bodies != [] && Offset(bodies, |bodies| - 1) < Power10(10)
  }

  lemma DocumentReadsBack(bodies: seq<string>, info: nat, extra: string, streams: seq<string>)
    requires Documents(bodies, streams) && Addressable(bodies)
    ensures ReadPages(File(bodies, info, extra)) == Some(streams)
  {
    var attributes, kids, contents :| Holds(bodies, attributes, kids, contents, streams);
    ReaderAgrees(bodies, info, extra, attributes, kids, contents, streams);
  }
}
