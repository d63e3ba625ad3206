/** The two writers: the numbering each one gives its objects, how it fills its buffer, and that a reader
    gets every page's content stream back. */
module PdfWriters {
  import opened Outcomes
  import opened Decimals
  import opened PdfFile
  import opened Texts
  import opened LineWrap

  /** The operators of each page, one per line. */
  function Streams(pages: seq<seq<string>>): (streams: seq<string>)
    ensures |streams| == |pages|
    ensures forall i :: 0 <= i < |pages| ==> streams[i] == JoinLines(pages[i])
  {
    seq(|pages|, i requires 0 <= i < |pages| => JoinLines(pages[i]))
  }

  /** The operators of each stream: its lines. */
  function Operators(streams: seq<string>): (pages: seq<seq<string>>)
    ensures |pages| == |streams|
    ensures forall i :: 0 <= i < |streams| ==> pages[i] == Paragraphs(streams[i])
  {
    seq(|streams|, i requires 0 <= i < |streams| => Paragraphs(streams[i]))
  }

  /** Every page has operators, and none holds a line feed. */
  predicate Separable(pages: seq<seq<string>>) {
    forall i :: 0 <= i < |pages| ==> pages[i] != [] && forall k :: 0 <= k < |pages[i]| ==> '\n' !in pages[i][k]
  }

  lemma OperatorsBackIff(pages: seq<seq<string>>)
    ensures Operators(Streams(pages)) == pages <==> Separable(pages)
  {
    forall i | 0 <= i < |pages|
      ensures Paragraphs(JoinLines(pages[i])) == pages[i]
         <==> pages[i] != [] && forall k :: 0 <= k < |pages[i]| ==> '\n' !in pages[i][k]
    {
      SplitJoinIff(pages[i]);
    }
  }

  /** What a reader shows of a file: page after page, operator after operator. */
  function ReadOperators(file: string): Option<seq<seq<string>>> {
    var streams :- ReadPages(file);
    Some(Operators(streams))
  }

  /** Numbers two apart: `count` of them, from `first`. */
  function Stride(first: nat, count: nat): (nums: seq<nat>)
    ensures |nums| == count
    ensures forall i :: 0 <= i < count ==> nums[i] == first + 2 * i
  {
    seq(count, i requires 0 <= i < count => first + 2 * i)
  }

  /** What an object is for; fonts and information are carried as they are. */
  datatype Body =
    | Catalog
    | PageTree(kids: seq<nat>)
    | Plain(text: string)
    | Page(attributes: string, content: nat)
    | Content(stream: string)

  function Text(body: Body): string {
    match body
    case Catalog => CATALOG
    case PageTree(kids) => PagesBody(kids)
    case Plain(text) => text
    case Page(attributes, content) => PageBody(attributes, content)
    case Content(stream) => ContentBody(stream)
  }

  function Bytes(bodies: seq<Body>): (bytes: seq<string>)
    ensures |bytes| == |bodies|
    ensures forall k :: 0 <= k < |bodies| ==> bytes[k] == Text(bodies[k])
  {
    seq(|bodies|, k requires 0 <= k < |bodies| => Text(bodies[k]))
  }

  // ------------------------------------------------ the escrow certificate

  /** Object `num` of the escrow certificate: catalog, page tree, two fonts, information; then each page
      followed by its content. */
  function NocBody(page: string, fonts: seq<string>, info: string, streams: seq<string>, num: nat): Body
    requires |fonts| == 2 && 0 < num < 6 + 2 * |streams|
  {
    if num == 1 then Catalog
    else if num == 2 then PageTree(Stride(6, |streams|))
    else if num <= 4 then Plain(fonts[num - 3])
    else if num == 5 then Plain(info)
    else if num % 2 == 0 then Page(page, num + 1)
    else Content(streams[(num - 7) / 2])
  }

  function NocBodies(page: string, fonts: seq<string>, info: string, streams: seq<string>): (bodies: seq<Body>)
    requires |fonts| == 2
    ensures |bodies| == 5 + 2 * |streams|
    ensures forall k :: 0 <= k < |bodies| ==> bodies[k] == NocBody(page, fonts, info, streams, k + 1)
  {
    seq(5 + 2 * |streams|, k requires 0 <= k < 5 + 2 * |streams| => NocBody(page, fonts, info, streams, k + 1))
  }

  // --------------------------------------------- the property certificate

  /** Object `num` of the property certificate: catalog, page tree, four fonts; then each content followed
      by its page; the information last. */
  function ExitBody(page: string, fonts: seq<string>, info: string, streams: seq<string>, num: nat): Body
    requires |fonts| == 4 && 0 < num < 8 + 2 * |streams|
  {
    if num == 1 then Catalog
    else if num == 2 then PageTree(Stride(8, |streams|))
    else if num <= 6 then Plain(fonts[num - 3])
    else if num == 7 + 2 * |streams| then Plain(info)
    else if num % 2 == 1 then Content(streams[(num - 7) / 2])
    else Page(page, num - 1)
  }

  function ExitBodies(page: string, fonts: seq<string>, info: string, streams: seq<string>): (bodies: seq<Body>)
    requires |fonts| == 4
    ensures |bodies| == 7 + 2 * |streams|
    ensures forall k :: 0 <= k < |bodies| ==> bodies[k] == ExitBody(page, fonts, info, streams, k + 1)
  {
    seq(7 + 2 * |streams|, k requires 0 <= k < 7 + 2 * |streams| => ExitBody(page, fonts, info, streams, k + 1))
  }

  // ------------------------------------------------------------- writing

  /** Write header, objects and cross-reference table, noting each object's offset on the way. */
  method WriteBody(bodies: seq<string>) returns (out: string, xref: nat)
    ensures out == HEADER + Objects(bodies) + TableText(bodies)
    ensures xref == Offset(bodies, |bodies|)
  {
    out := HEADER;
    var offsets := [];
    assert bodies[..0] == [];
    for k := 0 to |bodies|
      invariant out == HEADER + Objects(bodies[..k])
      invariant |offsets| == k && forall i :: 0 <= i < k ==> offsets[i] == Offset(bodies, i)
    {
      offsets := offsets + [|out|];
      ObjectsStep(bodies, k);
      out := out + ObjectText(k + 1, bodies[k]);
    }
    assert bodies[..|bodies|] == bodies;
    xref := |out|;
    var table := WriteTable(bodies, offsets);
    out := out + table;
  }

  method WriteTable(bodies: seq<string>, offsets: seq<nat>) returns (table: string)
    requires |offsets| == |bodies| && forall i :: 0 <= i < |offsets| ==> offsets[i] == Offset(bodies, i)
    ensures table == TableText(bodies)
  {
    var entries := FREE_ENTRY;
    for k := 0 to |bodies|
      invariant entries == FREE_ENTRY + Entries(bodies[..k])
    {
      EntriesStep(bodies, k);
      Assoc(FREE_ENTRY, Entries(bodies[..k]), Entry(offsets[k]));
      entries := entries + Entry(offsets[k]);
    }
    assert bodies[..|bodies|] == bodies;
    table := "xref\n0 " + (Dec(|bodies| + 1) + ("\n" + entries));
  }

  lemma ObjectsStep(bodies: seq<string>, k: nat)
    requires k < |bodies|
    ensures HEADER + Objects(bodies[..k + 1]) == HEADER + Objects(bodies[..k]) + ObjectText(k + 1, bodies[k])
  {
    assert bodies[..k + 1][..k] == bodies[..k];
  }

  lemma EntriesStep(bodies: seq<string>, k: nat)
    requires k < |bodies|
    ensures Entries(bodies[..k + 1]) == Entries(bodies[..k]) + Entry(Offset(bodies, k))
  {
    assert bodies[..k + 1][..k] == bodies[..k];
  }

  method JoinOps(ops: seq<string>) returns (stream: string)
    ensures stream == JoinLines(ops)
  {
    stream := "";
    for k := 0 to |ops|
      invariant stream == JoinLines(ops[..k])
    {
      assert ops[..k + 1][..k] == ops[..k];
      if k > 0 {
        stream := stream + "\n";
      }
      stream := stream + ops[k];
    }
    assert ops[..|ops|] == ops;
  }

  /** Collect the objects under their numbers, the page tree last, and list them in ascending order. */
  method NumberNoc(page: string, fonts: seq<string>, info: string, pages: seq<seq<string>>) returns (bodies: seq<Body>)
    requires |fonts| == 2
    ensures bodies == NocBodies(page, fonts, info, Streams(pages))
  {
    ghost var streams := Streams(pages);
    var objects: map<nat, Body> := map[1 := Catalog, 3 := Plain(fonts[0]), 4 := Plain(fonts[1]), 5 := Plain(info)];
    var kids := [];
    for index := 0 to |pages|
      invariant kids == Stride(6, index)
      invariant forall num :: num in objects <==> (1 <= num < 6 + 2 * index && num != 2)
      invariant forall num :: num in objects ==> objects[num] == NocBody(page, fonts, info, streams, num)
    {
      var pageNum := 6 + index * 2;
      kids := kids + [pageNum];
      var stream := JoinOps(pages[index]);
      objects := objects[pageNum := Page(page, pageNum + 1)];
      objects := objects[pageNum + 1 := Content(stream)];
    }
    objects := objects[2 := PageTree(kids)];
    bodies := [];
    for num := 1 to 6 + 2 * |pages|
      invariant |bodies| == num - 1
      invariant forall k :: 0 <= k < |bodies| ==> bodies[k] == NocBody(page, fonts, info, streams, k + 1)
    {
      bodies := bodies + [objects[num]];
    }
  }

  /** The escrow writer. */
  method RenderPdf(page: string, fonts: seq<string>, info: string, pages: seq<seq<string>>) returns (out: string)
    requires |fonts| == 2
    ensures out == File(Bytes(NocBodies(page, fonts, info, Streams(pages))), 5, "")
  {
    var bodies := NumberNoc(page, fonts, info, pages);
    out := WriteFile(Bytes(bodies), 5, _ => "");
  }

  /** Write the file; what `extra` adds to the trailer may depend on everything before it. */
  method WriteFile(bodies: seq<string>, info: nat, extra: string -> string) returns (out: string)
    ensures out == File(bodies, info, extra(HEADER + Objects(bodies) + TableText(bodies)))
  {
    var xref;
    out, xref := WriteBody(bodies);
    ghost var tail := Tail(bodies, info, extra(out));
    Assoc(HEADER + Objects(bodies), TableText(bodies), tail);
    out := out + (Trailer(|bodies| + 1, info, extra(out)) + Ending(xref));
  }

  /** Catalog and page tree are reserved first and filled in once the pages are numbered. */
  method NumberExit(page: string, fonts: seq<string>, info: string, pages: seq<seq<string>>)
    returns (objects: seq<Body>)
    requires |fonts| == 4
    ensures objects == ExitBodies(page, fonts, info, Streams(pages))
  {
    ghost var streams := Streams(pages);
    objects := [Plain(""), Plain("")];
    for f := 0 to |fonts|
      invariant |objects| == 2 + f
      invariant forall k :: 2 <= k < |objects| ==> objects[k] == Plain(fonts[k - 2])
    {
      objects := objects + [Plain(fonts[f])];
    }
    var pageNums := [];
    for index := 0 to |pages|
      invariant |objects| == 6 + 2 * index
      invariant forall k :: 2 <= k < |objects| ==> objects[k] == ExitBody(page, fonts, info, streams, k + 1)
      invariant pageNums == Stride(8, index)
    {
      var stream := JoinOps(pages[index]);
      objects := objects + [Content(stream)];
      var contentNum := |objects|;
      objects := objects + [Page(page, contentNum)];
      pageNums := pageNums + [|objects|];
    }
    objects := objects[1 := PageTree(pageNums)];
    objects := objects[0 := Catalog];
    objects := objects + [Plain(info)];
  }

  function IdEntry(id: string): string {
    " /ID [<" + id + "> <" + id + ">]"
  }

  lemma SkipId(pattern: string, id: string, rest: string)
    ensures Skip(pattern + (id + rest), pattern) == Some(id + rest)
    ensures id <= id + rest && (id + rest)[|id|..] == rest
  {
    SkipOver(pattern, id + rest);
  }

  lemma IdEntryIs(id: string, rest: string)
    ensures IdEntry(id) + rest == " /ID [<" + (id + ("> <" + (id + (">]" + rest))))
  {
  }

  /** The identifier stands in the trailer twice, in angle brackets. */
  lemma IdEntryReads(id: string, rest: string)
    ensures var first := Skip(IdEntry(id) + rest, " /ID [<");
      && first.Some? && id <= first.value
      && var second := Skip(first.value[|id|..], "> <");
      && second.Some? && id <= second.value && Skip(second.value[|id|..], ">]") == Some(rest)
  {
    IdEntryIs(id, rest);
    SkipId(" /ID [<", id, "> <" + (id + (">]" + rest)));
    SkipId("> <", id, ">]" + rest);
    SkipOver(">]", rest);
  }

  /** The property writer: the file identifier is computed from everything before the trailer. */
  method Build(page: string, fonts: seq<string>, info: string, pages: seq<seq<string>>, fileId: string -> string)
    returns (out: string)
    requires |fonts| == 4
    ensures var bodies := Bytes(ExitBodies(page, fonts, info, Streams(pages)));
      out == File(bodies, |bodies|, IdEntry(fileId(HEADER + Objects(bodies) + TableText(bodies))))
  {
    var objects := NumberExit(page, fonts, info, pages);
    out := WriteFile(Bytes(objects), |objects|, before => IdEntry(fileId(before)));
  }

  // ------------------------------------------------------------ theorems

  /** The numbering behind `Holds`. */
  predicate Numbered(bodies: seq<Body>, page: string, kids: seq<nat>, contents: seq<nat>, streams: seq<string>) {
    && CONTENTS_KEY[1] !in page
    && |bodies| >= 2 && bodies[0] == Catalog && bodies[1] == PageTree(kids)
    && |kids| == |streams| == |contents|
    && (forall i :: 0 <= i < |kids| ==> 0 < kids[i] <= |bodies| && bodies[kids[i] - 1] == Page(page, contents[i]))
    && (forall i :: 0 <= i < |contents| ==>
          0 < contents[i] <= |bodies| && bodies[contents[i] - 1] == Content(streams[i]))
  }

  lemma NumberedHolds(bodies: seq<Body>, page: string, kids: seq<nat>, contents: seq<nat>, streams: seq<string>)
    requires Numbered(bodies, page, kids, contents, streams)
    ensures Holds(Bytes(bodies), page, kids, contents, streams)
  {
  }

  lemma NocAt(page: string, fonts: seq<string>, info: string, streams: seq<string>, i: nat)
    requires |fonts| == 2 && i < |streams|
    ensures NocBody(page, fonts, info, streams, 6 + 2 * i) == Page(page, 7 + 2 * i)
    ensures NocBody(page, fonts, info, streams, 7 + 2 * i) == Content(streams[i])
  {
  }

  lemma NocNumbered(page: string, fonts: seq<string>, info: string, streams: seq<string>)
    requires |fonts| == 2 && CONTENTS_KEY[1] !in page
    ensures Numbered(NocBodies(page, fonts, info, streams), page, Stride(6, |streams|), Stride(7, |streams|), streams)
  {
    var bodies := NocBodies(page, fonts, info, streams);
    forall i | 0 <= i < |streams|
      ensures bodies[Stride(6, |streams|)[i] - 1] == Page(page, Stride(7, |streams|)[i])
      ensures bodies[Stride(7, |streams|)[i] - 1] == Content(streams[i])
    {
      NocAt(page, fonts, info, streams, i);
      assert bodies[5 + 2 * i] == NocBody(page, fonts, info, streams, 6 + 2 * i);
      assert bodies[6 + 2 * i] == NocBody(page, fonts, info, streams, 7 + 2 * i);
    }
  }

  lemma ExitAt(page: string, fonts: seq<string>, info: string, streams: seq<string>, i: nat)
    requires |fonts| == 4 && i < |streams|
    ensures ExitBody(page, fonts, info, streams, 7 + 2 * i) == Content(streams[i])
    ensures ExitBody(page, fonts, info, streams, 8 + 2 * i) == Page(page, 7 + 2 * i)
  {
  }

  lemma ExitNumbered(page: string, fonts: seq<string>, info: string, streams: seq<string>)
    requires |fonts| == 4 && CONTENTS_KEY[1] !in page
    ensures Numbered(ExitBodies(page, fonts, info, streams), page, Stride(8, |streams|), Stride(7, |streams|), streams)
  {
    var bodies := ExitBodies(page, fonts, info, streams);
    forall i | 0 <= i < |streams|
      ensures bodies[Stride(8, |streams|)[i] - 1] == Page(page, Stride(7, |streams|)[i])
      ensures bodies[Stride(7, |streams|)[i] - 1] == Content(streams[i])
    {
      ExitAt(page, fonts, info, streams, i);
      assert bodies[6 + 2 * i] == ExitBody(page, fonts, info, streams, 7 + 2 * i);
      assert bodies[7 + 2 * i] == ExitBody(page, fonts, info, streams, 8 + 2 * i);
    }
  }

  lemma NocDocuments(page: string, fonts: seq<string>, info: string, streams: seq<string>)
    requires |fonts| == 2 && CONTENTS_KEY[1] !in page
    ensures Documents(Bytes(NocBodies(page, fonts, info, streams)), streams)
  {
    NocNumbered(page, fonts, info, streams);
    NumberedHolds(NocBodies(page, fonts, info, streams), page, Stride(6, |streams|), Stride(7, |streams|), streams);
  }

  lemma NocStreamsBack(page: string, fonts: seq<string>, info: string, streams: seq<string>)
    requires |fonts| == 2 && CONTENTS_KEY[1] !in page
    requires Addressable(Bytes(NocBodies(page, fonts, info, streams)))
    ensures ReadPages(File(Bytes(NocBodies(page, fonts, info, streams)), 5, "")) == Some(streams)
  {
    NocDocuments(page, fonts, info, streams);
    DocumentReadsBack(Bytes(NocBodies(page, fonts, info, streams)), 5, "", streams);
  }

  /** From pages to pages: reading the escrow certificate gives every page's operators, in order, exactly when
      every page has some and none holds a line feed. Numbers have no gaps, references name the right
      objects and lengths are true. */
  lemma NocReadsBack(page: string, fonts: seq<string>, info: string, pages: seq<seq<string>>)
    requires |fonts| == 2 && CONTENTS_KEY[1] !in page
    requires Addressable(Bytes(NocBodies(page, fonts, info, Streams(pages))))
    ensures ReadOperators(File(Bytes(NocBodies(page, fonts, info, Streams(pages))), 5, "")) == Some(pages)
       <==> Separable(pages)
  {
    NocStreamsBack(page, fonts, info, Streams(pages));
    OperatorsBackIff(pages);
  }

  lemma ExitDocuments(page: string, fonts: seq<string>, info: string, streams: seq<string>)
    requires |fonts| == 4 && CONTENTS_KEY[1] !in page
    ensures Documents(Bytes(ExitBodies(page, fonts, info, streams)), streams)
  {
    ExitNumbered(page, fonts, info, streams);
    NumberedHolds(ExitBodies(page, fonts, info, streams), page, Stride(8, |streams|), Stride(7, |streams|), streams);
  }

  lemma ExitStreamsBack(page: string, fonts: seq<string>, info: string, streams: seq<string>, infoNum: nat,
                        extra: string)
    requires |fonts| == 4 && CONTENTS_KEY[1] !in page
    requires Addressable(Bytes(ExitBodies(page, fonts, info, streams)))
    ensures ReadPages(File(Bytes(ExitBodies(page, fonts, info, streams)), infoNum, extra)) == Some(streams)
  {
    ExitDocuments(page, fonts, info, streams);
    DocumentReadsBack(Bytes(ExitBodies(page, fonts, info, streams)), infoNum, extra, streams);
  }

  /** The same for the property certificate, whatever the information object's number and the identifier. */
  lemma ExitReadsBack(page: string, fonts: seq<string>, info: string, pages: seq<seq<string>>, infoNum: nat,
                      extra: string)
    requires |fonts| == 4 && CONTENTS_KEY[1] !in page
    requires Addressable(Bytes(ExitBodies(page, fonts, info, Streams(pages))))
    ensures ReadOperators(File(Bytes(ExitBodies(page, fonts, info, Streams(pages))), infoNum, extra)) == Some(pages)
       <==> Separable(pages)
  {
    ExitStreamsBack(page, fonts, info, Streams(pages), infoNum, extra);
    OperatorsBackIff(pages);
  }

  // ----------------------------------------------- fonts and information

  /** Read from its end, the file of these objects leads to this text as object `num`. */
  predicate Carries(bodies: seq<Body>, info: nat, extra: string, num: nat, text: string) {
    var texts := Bytes(bodies);
    && ReadTable(File(texts, info, extra)) == Some(TableOf(texts, info, extra))
    && Found(File(texts, info, extra), TableOf(texts, info, extra), num, text)
  }

  /** Its trailer names this information object, and carries the additions. */
  predicate Informs(bodies: seq<Body>, info: nat, extra: string) {
    ReadTrailer(TableOf(Bytes(bodies), info, extra))
    == Some((|bodies| + 1, 1, info, TrailerRest(Bytes(bodies), extra)))
  }

  lemma PlainCarried(bodies: seq<Body>, info: nat, extra: string, num: nat, text: string)
    requires Addressable(Bytes(bodies)) && 0 < num <= |bodies| && bodies[num - 1] == Plain(text)
    ensures Carries(bodies, info, extra, num, text) && Informs(bodies, info, extra)
  {
    FileOpens(Bytes(bodies), info, extra);
    ObjectFound(Bytes(bodies), info, extra, num - 1);
  }

  /** The fonts the pages name are objects 3 and 4, and the trailer names the information object. */
  lemma NocResourcesFound(page: string, fonts: seq<string>, info: string, pages: seq<seq<string>>)
    requires |fonts| == 2 && Addressable(Bytes(NocBodies(page, fonts, info, Streams(pages))))
    ensures var bodies := NocBodies(page, fonts, info, Streams(pages));
      && Carries(bodies, 5, "", 3, fonts[0]) && Carries(bodies, 5, "", 4, fonts[1])
      && Carries(bodies, 5, "", 5, info) && Informs(bodies, 5, "")
  {
    var bodies := NocBodies(page, fonts, info, Streams(pages));
    PlainCarried(bodies, 5, "", 3, fonts[0]);
    PlainCarried(bodies, 5, "", 4, fonts[1]);
    PlainCarried(bodies, 5, "", 5, info);
  }

  /** The property certificate's are objects 3 to 6, and its information object is the last. */
  lemma ExitResourcesFound(page: string, fonts: seq<string>, info: string, pages: seq<seq<string>>, extra: string)
    requires |fonts| == 4 && Addressable(Bytes(ExitBodies(page, fonts, info, Streams(pages))))
    ensures var bodies := ExitBodies(page, fonts, info, Streams(pages));
      && (forall f :: 0 <= f < 4 ==> Carries(bodies, |bodies|, extra, 3 + f, fonts[f]))
      && Carries(bodies, |bodies|, extra, |bodies|, info) && Informs(bodies, |bodies|, extra)
  {
    var bodies := ExitBodies(page, fonts, info, Streams(pages));
    forall f | 0 <= f < 4
      ensures Carries(bodies, |bodies|, extra, 3 + f, fonts[f])
    {
      PlainCarried(bodies, |bodies|, extra, 3 + f, fonts[f]);
    }
    PlainCarried(bodies, |bodies|, extra, |bodies|, info);
  }

  // ------------------------------------------------- the page attributes

  const PAGE_START: string := "<< /Type /Page /Parent 2 0 R /MediaBox [0 0 "
  const FONT_START: string := "] /Resources << /Font << /F1 3 0 R /F2 4 0 R"

  /** What the escrow writer puts in front of the reference to the content, */
  function NocPage(): string {
    PAGE_START + "595.28 841.89" + FONT_START + " >> >> "
  }

  /** and what the property writer does. */
  function ExitPage(mediaBox: string): string {
    PAGE_START + mediaBox + FONT_START + " /F3 5 0 R /F4 6 0 R >> >> "
  }

  lemma Joined(a: string, b: string, c: string, d: string, x: char)
    requires x !in a && x !in b && x !in c && x !in d
    ensures x !in a + b + c + d
  {
  }

  lemma StartHasNoKey()
    ensures 'C' !in PAGE_START
  {
  }

  lemma FontsHaveNoKey()
    ensures 'C' !in FONT_START
  {
  }

  lemma EndsHaveNoKey()
    ensures 'C' !in "595.28 841.89" && 'C' !in " >> >> " && 'C' !in " /F3 5 0 R /F4 6 0 R >> >> "
  {
  }

  /** Neither can be taken for the key of the content. */
  lemma PagesHaveNoKey(mediaBox: string)
    requires CONTENTS_KEY[1] !in mediaBox
    ensures CONTENTS_KEY[1] !in NocPage() && CONTENTS_KEY[1] !in ExitPage(mediaBox)
  {
    StartHasNoKey();
    FontsHaveNoKey();
    EndsHaveNoKey();
    Joined(PAGE_START, "595.28 841.89", FONT_START, " >> >> ", 'C');
    Joined(PAGE_START, mediaBox, FONT_START, " /F3 5 0 R /F4 6 0 R >> >> ", 'C');
  }
}
