/**
 The text of a projected table (services/index_worker/pdf_layout.py) and what a reader of it finds:
 exactly the elements that were printed, and so the table that was recovered.
 */
module TableMarkup {

  import opened Outcome
  import opened Text
  import opened TableGrid
  import opened TableHtml

  // ---- Printing ----------------------------------------------------------------------------

  // html.escape
  function Escaped(c: char): string {
    if c == '&' then "&amp;"
    else if c == '<' then "&lt;"
    else if c == '>' then "&gt;"
    else if c == '"' then "&quot;"
    else if c == '\'' then "&#x27;"
    else [c]
  }

  function Escape(text: string): string {
    if text == "" then "" else Escaped(text[0]) + Escape(text[1..])
  }

  // White space runs become one space; leading and trailing white space goes.
  function Collapse(text: string, spaced: bool): string {
    if text == "" then ""
    else if IsSpace(text[0]) then (if spaced then "" else " ") + Collapse(text[1..], true)
    else [text[0]] + Collapse(text[1..], false)
  }

  function Compact(text: string): string {
    Strip(Collapse(text, false))
  }

  // What white space follows the last word.
  function Trailing(text: string): string {
    if text != "" && IsSpace(text[|text| - 1]) && Words(text) != [] then " " else ""
  }

  lemma {:induction false} CollapseIs(text: string)
    ensures Collapse(text, true) == Join(Words(text), ' ') + Trailing(text)
    ensures Collapse(text, false) == (if text != "" && IsSpace(text[0]) then " " else "") + Collapse(text, true)
  {
    if text != "" {
      var rest := text[1..];
      CollapseIs(rest);
      if !IsSpace(text[0]) { WordCollapsed(text[0], rest); }
      assert [text[0]] + rest == text;
      if IsSpace(text[0]) {
        assert Words(text) == Words(rest);
        assert rest != "" ==> rest[|rest| - 1] == text[|text| - 1];
      }
    }
  }

  lemma WordCollapsed(c: char, rest: string)
    requires !IsSpace(c)
    requires Collapse(rest, true) == Join(Words(rest), ' ') + Trailing(rest)
    requires Collapse(rest, false) == (if rest != "" && IsSpace(rest[0]) then " " else "") + Collapse(rest, true)
    ensures [c] + Collapse(rest, false) == Join(Words([c] + rest), ' ') + Trailing([c] + rest)
  {
    if rest == "" {
      LastLetter(c);
      assert [c] + rest == [c];
    } else {
      TrailingAfter(c, rest);
      var joined, trailing := Join(Words(rest), ' '), Trailing(rest);
      if IsSpace(rest[0]) {
        NewWord(c, rest);
        Apart(c, joined, trailing);
      } else {
        WordGrows(c, rest);
        assert [c] + ("" + (joined + trailing)) == [c] + joined + trailing;
      }
    }
  }

  lemma Apart(c: char, joined: string, trailing: string)
    ensures [c] + (" " + (joined + trailing)) == [c] + [' '] + joined + trailing
    ensures joined == "" && trailing == "" ==> [c] + (" " + (joined + trailing)) == [c] + " "
  {
  }

  lemma LastLetter(c: char)
    requires !IsSpace(c)
    ensures [c] + Collapse("", false) == Join(Words([c]), ' ') + Trailing([c])
  {
    assert [c][1..] == "";
    assert Words([c]) == [[c]];
  }

  lemma TrailingAfter(c: char, rest: string)
    requires !IsSpace(c) && rest != ""
    ensures Trailing([c] + rest) == if IsSpace(rest[|rest| - 1]) then " " else ""
    ensures Trailing(rest) == if IsSpace(rest[|rest| - 1]) && Words(rest) != [] then " " else ""
  {
    var text := [c] + rest;
    assert text[|text| - 1] == rest[|rest| - 1];
  }

  lemma WordGrows(c: char, rest: string)
    requires !IsSpace(c) && rest != "" && !IsSpace(rest[0])
    ensures Join(Words([c] + rest), ' ') == [c] + Join(Words(rest), ' ') && Words(rest) != []
  {
    LongerWord(c, rest);
    JoinLonger(c, Words(rest));
  }

  lemma LongerWord(c: char, rest: string)
    requires !IsSpace(c) && rest != "" && !IsSpace(rest[0])
    ensures Words(rest) != [] && Words([c] + rest) == [[c] + Words(rest)[0]] + Words(rest)[1..]
  {
    var text := [c] + rest;
    assert text[1..] == rest && text[1] == rest[0];
  }

  lemma JoinLonger(c: char, words: seq<string>)
    requires words != []
    ensures Join([[c] + words[0]] + words[1..], ' ') == [c] + Join(words, ' ')
  {
    var joined := [[c] + words[0]] + words[1..];
    assert joined[1..] == words[1..];
    if |words| > 1 {
      assert [c] + words[0] + [' '] + Join(words[1..], ' ') == [c] + (words[0] + [' '] + Join(words[1..], ' '));
    }
  }

  lemma NewWord(c: char, rest: string)
    requires !IsSpace(c) && rest != "" && IsSpace(rest[0])
    ensures Join(Words([c] + rest), ' ') == if Words(rest) == [] then [c] else [c] + [' '] + Join(Words(rest), ' ')
    ensures Words(rest) == [] ==> IsSpace(rest[|rest| - 1])
  {
    AnotherWord(c, rest);
    assert ([[c]] + Words(rest))[1..] == Words(rest);
    if Words(rest) == [] { OnlySpace(rest); }
  }

  lemma AnotherWord(c: char, rest: string)
    requires !IsSpace(c) && rest != "" && IsSpace(rest[0])
    ensures Words([c] + rest) == [[c]] + Words(rest)
  {
    var text := [c] + rest;
    assert text[1..] == rest && text[1] == rest[0];
  }

  lemma {:induction false} OnlySpace(text: string)
    requires Words(text) == []
    ensures forall i :: 0 <= i < |text| ==> IsSpace(text[i])
  {
    if text != "" { OnlySpace(text[1..]); }
  }

  // A compacted text is the words of the text, one space apart.
  lemma CompactIsWords(text: string)
    ensures Compact(text) == Join(Words(text), ' ')
  {
    CollapseIs(text);
    WordsSolid(text);
    if Words(text) != [] { JoinedEnds(Words(text)); }
    StrippedWords(if text != "" && IsSpace(text[0]) then " " else "", Join(Words(text), ' '), Trailing(text));
  }

  lemma StrippedWords(lead: string, joined: string, trailing: string)
    requires lead in {"", " "} && trailing in {"", " "} && (joined != "" ==> !IsSpace(joined[0]) && !IsSpace(joined[|joined| - 1]))
    ensures Strip(lead + (joined + trailing)) == joined
  {
    StripIs(lead, joined, trailing);
    assert lead + (joined + trailing) == lead + joined + trailing;
  }

  function Tag(heading: bool): string {
    if heading then "th" else "td"
  }

  function Attribute(name: string, value: Option<nat>): string {
    if value.None? then "" else " " + name + "=\"" + Decimal(value.value) + "\""
  }

  function PrintElement(e: Element): string {
    ("<" + Tag(e.heading)) + (Attribute("rowspan", e.rowspan) + (Attribute("colspan", e.colspan) + Content(e)))
  }

  function Content(e: Element): string {
    ">" + (Escape(Compact(e.text)) + ("</" + Tag(e.heading) + ">"))
  }

  function PrintElements(elements: seq<Element>): string {
    if elements == [] then "" else PrintElement(elements[0]) + PrintElements(elements[1..])
  }

  function PrintOneRow(row: seq<Element>): string {
    "<tr>" + (PrintElements(row) + "</tr>")
  }

  function PrintRows(rows: seq<seq<Element>>): string {
    if rows == [] then "" else PrintOneRow(rows[0]) + PrintRows(rows[1..])
  }

  function PrintTable(id: string, rows: seq<seq<Element>>): string {
    "<table data-table-id=\"" + Escape(id) + "\">" + PrintRows(rows) + "</table>"
  }

  lemma {:induction false} PrintElementsAppend(a: seq<Element>, b: seq<Element>)
    ensures PrintElements(a + b) == PrintElements(a) + PrintElements(b)
    decreases |a|
  {
    if a == [] {
      assert a + b == b;
    } else {
      assert (a + b)[1..] == a[1..] + b;
      PrintElementsAppend(a[1..], b);
    }
  }

  lemma {:induction false} PrintRowsAppend(a: seq<seq<Element>>, b: seq<seq<Element>>)
    ensures PrintRows(a + b) == PrintRows(a) + PrintRows(b)
    decreases |a|
  {
    if a == [] {
      assert a + b == b;
    } else {
      assert (a + b)[1..] == a[1..] + b;
      PrintRowsAppend(a[1..], b);
    }
  }

  method GroupByRow(cells: seq<Cell>) returns (byRow: map<nat, seq<Cell>>)
    ensures forall row: nat :: (if row in byRow then byRow[row] else []) == RowCells(cells, row)
  {
    byRow := map[];
    for i := 0 to |cells|
      invariant forall row: nat :: (if row in byRow then byRow[row] else []) == RowCells(cells[..i], row)
    {
      var cell := cells[i];
      assert cells[..i + 1][..i] == cells[..i];
      byRow := byRow[cell.row := (if cell.row in byRow then byRow[cell.row] else []) + [cell]];
    }
    assert cells[..|cells|] == cells;
  }

  lemma NextElement(elements: seq<Element>, i: nat)
    requires i < |elements|
    ensures PrintElements(elements[..i + 1]) == PrintElements(elements[..i]) + PrintElement(elements[i])
  {
    assert elements[..i + 1] == elements[..i] + [elements[i]];
    PrintElementsAppend(elements[..i], [elements[i]]);
    OneElement(elements[i]);
  }

  lemma OneElement(e: Element)
    ensures PrintElements([e]) == PrintElement(e)
  {
    assert [e][1..] == [];
  }

  method PrintRow(cells: seq<Cell>, headerRowCount: nat) returns (html: string)
    ensures html == PrintElements(ElementsOf(cells, headerRowCount))
  {
    ghost var elements := ElementsOf(cells, headerRowCount);
    html := "";
    for i := 0 to |cells|
      invariant |elements| == |cells| && html == PrintElements(elements[..i])
    {
      NextElement(elements, i);
      html := html + PrintElement(ElementOf(cells[i], headerRowCount));
    }
    assert elements[..|cells|] == elements;
  }

  lemma {:induction false} RowCount(block: TableBlock, y: nat)
    requires y <= block.rowCount
    ensures |RowsFrom(block, y)| == block.rowCount - y
    decreases block.rowCount - y
  {
    if y < block.rowCount { RowCount(block, y + 1); }
  }

  lemma {:induction false} RowAt(block: TableBlock, y: nat, i: nat)
    requires y + i < block.rowCount && i < |RowsFrom(block, y)|
    ensures RowsFrom(block, y)[i] == RowOf(block, y + i)
    decreases i
  {
    if i > 0 {
      assert RowsFrom(block, y)[i] == RowsFrom(block, y + 1)[i - 1];
      RowAt(block, y + 1, i - 1);
    }
  }

  lemma NextRow(rows: seq<seq<Element>>, y: nat)
    requires y < |rows|
    ensures PrintRows(rows[..y + 1]) == PrintRows(rows[..y]) + PrintOneRow(rows[y])
  {
    assert rows[..y + 1] == rows[..y] + [rows[y]];
    PrintRowsAppend(rows[..y], [rows[y]]);
    OneRow(rows[y]);
  }

  lemma OneRow(row: seq<Element>)
    ensures PrintRows([row]) == PrintOneRow(row)
  {
    assert [row][1..] == [];
  }

  method PrintRowsOf(block: TableBlock) returns (body: string)
    ensures body == PrintRows(Rows(block))
  {
    var byRow := GroupByRow(block.cells);
    ghost var rows := Rows(block);
    RowCount(block, 0);
    body := "";
    for y := 0 to block.rowCount
      invariant |rows| == block.rowCount && body == PrintRows(rows[..y])
    {
      RowAt(block, 0, y);
      NextRow(rows, y);
      var cells := SortByColumn(if y in byRow then byRow[y] else []);
      var row := PrintRow(cells, block.headerRowCount);
      assert rows[y] == ElementsOf(cells, block.headerRowCount);
      body := body + ("<tr>" + (row + "</tr>"));
    }
    assert rows[..|rows|] == rows;
  }

  method PrintBlock(block: TableBlock, id: string) returns (html: string)
    ensures html == PrintTable(id, Rows(block))
  {
    var body := PrintRowsOf(block);
    html := "<table data-table-id=\"" + Escape(id) + "\">" + body + "</table>";
  }

  // ---- Reading -----------------------------------------------------------------------------

  // The text after a token that must come next.
  function After(s: string, token: string): Option<string> {
    if token <= s then Some(s[|token|..]) else None
  }

  // The character a reference at the start of the text stands for, and the length of the reference.
  function Reference(s: string): (char, nat)
    requires s != ""
  {
    if "&amp;" <= s then ('&', 5)
    else if "&lt;" <= s then ('<', 4)
    else if "&gt;" <= s then ('>', 4)
    else if "&quot;" <= s then ('"', 6)
    else if "&#x27;" <= s then ('\'', 6)
    else (s[0], 1)
  }

  function Unescape(s: string): string
    decreases |s|
  {
    if s == "" then "" else [Reference(s).0] + Unescape(s[Reference(s).1..])
  }

  // A span attribute, when there is one.
  function ReadAttribute(s: string, name: string): Option<(Option<nat>, string)> {
    match After(s, " " + name + "=\"")
    case None => Some((None, s))
    case Some(rest) =>
      var end := Find(rest, '"');
      if end == |rest| || !AllDigits(rest[..end]) then None
      else Some((Some(ParseDecimal(rest[..end])), rest[end + 1..]))
  }

  function ReadElement(s: string): Option<(Element, string)> {
    if !("<th" <= s || "<td" <= s) then None
    else
      var heading := "<th" <= s;
      match ReadAttribute(s[3..], "rowspan")
      case None => None
      case Some((rowspan, afterRowspan)) =>
        match ReadAttribute(afterRowspan, "colspan")
        case None => None
        case Some((colspan, afterColspan)) =>
          if !(">" <= afterColspan) then None
          else
            var text := afterColspan[1..];
            var end := Find(text, '<');
            match After(text[end..], "</" + Tag(heading) + ">")
            case None => None
            case Some(rest) => Some((Element(heading, rowspan, colspan, Unescape(text[..end])), rest))
  }

  // Elements up to the end of the row.
  function ReadElements(s: string): Option<(seq<Element>, string)>
    decreases |s|
  {
    match After(s, "</tr>")
    case Some(rest) => Some(([], rest))
    case None =>
      match ReadElement(s)
      case None => None
      case Some((e, rest)) =>
        if |rest| >= |s| then None
        else
          match ReadElements(rest)
          case None => None
          case Some((more, end)) => Some(([e] + more, end))
  }

  function ReadRows(s: string): Option<seq<seq<Element>>>
    decreases |s|
  {
    if s == "</table>" then Some([])
    else
      match After(s, "<tr>")
      case None => None
      case Some(inside) =>
        match ReadElements(inside)
        case None => None
        case Some((row, rest)) =>
          if |rest| >= |s| then None
          else
            match ReadRows(rest)
            case None => None
            case Some(rows) => Some([row] + rows)
  }

  function ReadTable(s: string): Option<(string, seq<seq<Element>>)> {
    match After(s, "<table data-table-id=\"")
    case None => None
    case Some(rest) =>
      var end := Find(rest, '"');
      if end == |rest| || !(">" <= rest[end + 1..]) then None
      else
        match ReadRows(rest[end + 2..])
        case None => None
        case Some(rows) => Some((Unescape(rest[..end]), rows))
  }

  // ---- Reading what was printed --------------------------------------------------------------

  lemma AfterPrinted(token: string, rest: string)
    ensures After(token + rest, token) == Some(rest)
  {
    assert (token + rest)[..|token|] == token;
    assert (token + rest)[|token|..] == rest;
  }

  lemma {:induction false} EscapeSafe(text: string)
    ensures '<' !in Escape(text) && '"' !in Escape(text)
  {
    if text != "" { EscapeSafe(text[1..]); }
  }

  lemma {:induction false} UnescapeEscape(text: string)
    ensures Unescape(Escape(text)) == text
  {
    if text != "" {
      var rest := Escape(text[1..]);
      ReferencePrinted(text[0], rest);
      assert Escape(text)[|Escaped(text[0])|..] == rest;
      UnescapeEscape(text[1..]);
      assert text == [text[0]] + text[1..];
    }
  }

  lemma ReferencePrinted(c: char, rest: string)
    ensures Reference(Escaped(c) + rest) == (c, |Escaped(c)|)
  {
    var s := Escaped(c) + rest;
    assert s[0] == Escaped(c)[0];
    assert s[..|Escaped(c)|] == Escaped(c);
    if c == '&' || c == '<' || c == '>' || c == '"' || c == '\'' {
      assert s[1] == Escaped(c)[1];
    }
  }

  lemma FindPrinted(text: string, c: char, rest: string)
    requires c !in text
    ensures Find(text + [c] + rest, c) == |text|
    ensures (text + [c] + rest)[..|text|] == text && (text + [c] + rest)[|text| + 1..] == rest
  {
    FindIs(text + [c] + rest, c, |text|);
  }

  // A printed attribute is read back when what follows is not the same attribute.
  lemma AttributeRead(name: string, value: Option<nat>, rest: string)
    requires !(" " + name + "=\"" <= rest)
    ensures ReadAttribute(Attribute(name, value) + rest, name) == Some((value, rest))
  {
    var token := " " + name + "=\"";
    if value.None? {
      assert Attribute(name, value) + rest == rest;
    } else {
      var digits := Decimal(value.value);
      var tail := digits + ['"'] + rest;
      assert Attribute(name, value) + rest == token + tail;
      AfterPrinted(token, tail);
      assert '"' !in digits by { assert AllDigits(digits); }
      FindPrinted(digits, '"', rest);
      DecimalRoundTrip(value.value);
    }
  }

  function Normal(e: Element): Element {
    e.(text := Compact(e.text))
  }

  lemma Associate(a: string, b: string, c: string)
    ensures (a + b) + c == a + (b + c)
  {
  }

  // What stands after the attributes of a printed element.
  function Body(e: Element, rest: string): string {
    ">" + Inside(e, rest)
  }

  function Inside(e: Element, rest: string): string {
    Escape(Compact(e.text)) + ("</" + Tag(e.heading) + ">" + rest)
  }

  lemma ElementPrinted(e: Element, rest: string)
    ensures PrintElement(e) + rest ==
      ("<" + Tag(e.heading)) + (Attribute("rowspan", e.rowspan) + (Attribute("colspan", e.colspan) + Body(e, rest)))
  {
    var rowspan, colspan := Attribute("rowspan", e.rowspan), Attribute("colspan", e.colspan);
    Associate("<" + Tag(e.heading), rowspan + (colspan + Content(e)), rest);
    Associate(rowspan, colspan + Content(e), rest);
    Associate(colspan, Content(e), rest);
    Associate(">", Escape(Compact(e.text)) + ("</" + Tag(e.heading) + ">"), rest);
    Associate(Escape(Compact(e.text)), "</" + Tag(e.heading) + ">", rest);
  }

  lemma BodyRead(e: Element, rest: string)
    ensures var text := Inside(e, rest);
      var end := Find(text, '<');
      Unescape(text[..end]) == Compact(e.text) && After(text[end..], "</" + Tag(e.heading) + ">") == Some(rest)
  {
    var printed, closing := Escape(Compact(e.text)), "</" + Tag(e.heading) + ">" + rest;
    EscapeSafe(Compact(e.text));
    UnescapeEscape(Compact(e.text));
    FindFirst(printed, closing);
    AfterPrinted("</" + Tag(e.heading) + ">", rest);
  }

  lemma FindFirst(printed: string, closing: string)
    requires '<' !in printed && closing != "" && closing[0] == '<'
    ensures Find(printed + closing, '<') == |printed|
    ensures (printed + closing)[..|printed|] == printed && (printed + closing)[|printed|..] == closing
  {
    FindIs(printed + closing, '<', |printed|);
  }

  lemma NotAnAttribute(name: string, e: Element, rest: string)
    requires name == "rowspan" || name == "colspan"
    ensures !(" " + name + "=\"" <= Body(e, rest))
    ensures !(" rowspan=\"" <= Attribute("colspan", e.colspan) + Body(e, rest))
  {
    assert Body(e, rest)[0] == '>';
    var colspan := Attribute("colspan", e.colspan) + Body(e, rest);
    if e.colspan.Some? {
      assert colspan[1] == 'c';
      assert " rowspan=\""[1] == 'r';
    } else {
      assert colspan == Body(e, rest);
    }
  }

  lemma TagRead(heading: bool, rest: string)
    ensures var s := ("<" + Tag(heading)) + rest;
      |s| >= 3 && s[1] == 't' && s[3..] == rest && ("<th" <= s) == heading && ("<td" <= s) == !heading
  {
    var s := ("<" + Tag(heading)) + rest;
    assert s[2] == Tag(heading)[1];
    assert s[..3] == "<" + Tag(heading);
  }

  // A printed element is read back, its white space collapsed.
  lemma ElementRead(e: Element, rest: string)
    ensures ReadElement(PrintElement(e) + rest) == Some((Normal(e), rest))
  {
    var body := Body(e, rest);
    var colspan := Attribute("colspan", e.colspan) + body;
    ElementPrinted(e, rest);
    TagRead(e.heading, Attribute("rowspan", e.rowspan) + colspan);
    NotAnAttribute("rowspan", e, rest);
    AttributeRead("rowspan", e.rowspan, colspan);
    NotAnAttribute("colspan", e, rest);
    AttributeRead("colspan", e.colspan, body);
    assert ">" <= body && body[1..] == Inside(e, rest);
    BodyRead(e, rest);
  }

  function NormalRow(row: seq<Element>): seq<Element> {
    if row == [] then [] else [Normal(row[0])] + NormalRow(row[1..])
  }

  function NormalRows(rows: seq<seq<Element>>): seq<seq<Element>> {
    if rows == [] then [] else [NormalRow(rows[0])] + NormalRows(rows[1..])
  }

  lemma ElementStarts(e: Element, rest: string)
    ensures After(PrintElement(e) + rest, "</tr>") == None
  {
    ElementPrinted(e, rest);
    TagRead(e.heading, Attribute("rowspan", e.rowspan) + (Attribute("colspan", e.colspan) + Body(e, rest)));
    assert "</tr>"[1] == '/';
  }

  lemma {:induction false} ElementsRead(row: seq<Element>, rest: string)
    ensures ReadElements(PrintElements(row) + ("</tr>" + rest)) == Some((NormalRow(row), rest))
    decreases |row|
  {
    if row == [] {
      assert PrintElements(row) + ("</tr>" + rest) == "</tr>" + rest;
      AfterPrinted("</tr>", rest);
    } else {
      var tail := PrintElements(row[1..]) + ("</tr>" + rest);
      Associate(PrintElement(row[0]), PrintElements(row[1..]), "</tr>" + rest);
      ElementStarts(row[0], tail);
      ElementRead(row[0], tail);
      ElementsRead(row[1..], rest);
    }
  }

  lemma RowRead(row: seq<Element>, tail: string)
    ensures var s := PrintOneRow(row) + tail;
      s != "</table>" && After(s, "<tr>").Some? && ReadElements(After(s, "<tr>").value) == Some((NormalRow(row), tail)) && |tail| < |s|
  {
    var inside := PrintElements(row) + ("</tr>" + tail);
    Associate("<tr>", PrintElements(row) + "</tr>", tail);
    Associate(PrintElements(row), "</tr>", tail);
    AfterPrinted("<tr>", inside);
    assert ("<tr>" + inside)[2] == 'r' && "</table>"[2] == 't';
    ElementsRead(row, tail);
  }

  lemma {:induction false} RowsRead(rows: seq<seq<Element>>)
    ensures ReadRows(PrintRows(rows) + "</table>") == Some(NormalRows(rows))
    decreases |rows|
  {
    if rows == [] {
      assert PrintRows(rows) + "</table>" == "</table>";
    } else {
      Associate(PrintOneRow(rows[0]), PrintRows(rows[1..]), "</table>");
      RowRead(rows[0], PrintRows(rows[1..]) + "</table>");
      RowsRead(rows[1..]);
    }
  }

  // Whatever the table id and the cell texts hold, the printed table reads back as its id and its
  // rows of elements, headings, spans and texts included.
  lemma TableRead(id: string, rows: seq<seq<Element>>)
    ensures ReadTable(PrintTable(id, rows)) == Some((id, NormalRows(rows)))
  {
    var body := PrintRows(rows) + "</table>";
    TablePrinted(id, rows);
    AfterPrinted("<table data-table-id=\"", IdAndBody(id, body));
    IdRead(id, body);
    RowsRead(rows);
  }

  function IdAndBody(id: string, body: string): string {
    Escape(id) + ['"'] + (">" + body)
  }

  lemma TablePrinted(id: string, rows: seq<seq<Element>>)
    ensures PrintTable(id, rows) == "<table data-table-id=\"" + IdAndBody(id, PrintRows(rows) + "</table>")
  {
  }

  lemma IdRead(id: string, body: string)
    ensures var rest := IdAndBody(id, body); var end := Find(rest, '"');
      end < |rest| && Unescape(rest[..end]) == id && ">" <= rest[end + 1..] && rest[end + 2..] == body
  {
    EscapeSafe(id);
    UnescapeEscape(id);
    FindPrinted(Escape(id), '"', ">" + body);
    var rest := IdAndBody(id, body);
    assert rest[|Escape(id)| + 1..] == ">" + body;
    assert rest[|Escape(id)| + 2..] == (">" + body)[1..];
  }

  // ---- Forming the table that was read ---------------------------------------------------------

  // A block whose texts have been compacted prints what the block prints, read back.
  function CompactCell(cell: Cell): Cell {
    cell.(text := Compact(cell.text))
  }

  function CompactCells(cells: seq<Cell>): (r: seq<Cell>)
    ensures |r| == |cells| && forall k :: 0 <= k < |cells| ==> r[k] == CompactCell(cells[k])
  {
    if cells == [] then [] else CompactCells(cells[..|cells| - 1]) + [CompactCell(cells[|cells| - 1])]
  }

  function Compacted(block: TableBlock): TableBlock {
    block.(cells := CompactCells(block.cells))
  }

  lemma {:induction false} RowCellsCompact(cells: seq<Cell>, y: nat)
    ensures RowCells(CompactCells(cells), y) == CompactCells(RowCells(cells, y))
  {
    if cells != [] {
      var n := |cells| - 1;
      RowCellsCompact(cells[..n], y);
      assert CompactCells(cells)[..n] == CompactCells(cells[..n]);
      if cells[n].row == y {
        var row := RowCells(cells[..n], y) + [cells[n]];
        assert row[..|row| - 1] == RowCells(cells[..n], y);
      }
    }
  }

  lemma PrependCompact(cell: Cell, cells: seq<Cell>)
    ensures CompactCells([cell] + cells) == [CompactCell(cell)] + CompactCells(cells)
  {
  }

  lemma {:induction false} InsertCompact(cell: Cell, cells: seq<Cell>)
    ensures InsertByColumn(CompactCell(cell), CompactCells(cells)) == CompactCells(InsertByColumn(cell, cells))
  {
    if cells != [] && cell.column > cells[0].column {
      InsertCompact(cell, cells[1..]);
      assert CompactCells(cells)[1..] == CompactCells(cells[1..]);
      PrependCompact(cells[0], InsertByColumn(cell, cells[1..]));
    } else {
      PrependCompact(cell, cells);
    }
  }

  lemma {:induction false} SortCompact(cells: seq<Cell>)
    ensures SortByColumn(CompactCells(cells)) == CompactCells(SortByColumn(cells))
  {
    if cells != [] {
      SortCompact(cells[1..]);
      assert CompactCells(cells)[1..] == CompactCells(cells[1..]);
      InsertCompact(cells[0], SortByColumn(cells[1..]));
    }
  }

  lemma {:induction false} ElementsCompact(cells: seq<Cell>, headerRowCount: nat)
    ensures ElementsOf(CompactCells(cells), headerRowCount) == NormalRow(ElementsOf(cells, headerRowCount))
  {
    if cells != [] {
      assert CompactCells(cells)[1..] == CompactCells(cells[1..]);
      ElementsCompact(cells[1..], headerRowCount);
    }
  }

  lemma RowCompact(block: TableBlock, y: nat)
    ensures RowOf(Compacted(block), y) == NormalRow(RowOf(block, y))
  {
    RowCellsCompact(block.cells, y);
    SortCompact(RowCells(block.cells, y));
    ElementsCompact(SortByColumn(RowCells(block.cells, y)), block.headerRowCount);
  }

  lemma {:induction false} RowsCompact(block: TableBlock, y: nat)
    ensures RowsFrom(Compacted(block), y) == NormalRows(RowsFrom(block, y))
    decreases block.rowCount - y
  {
    if y < block.rowCount {
      RowCompact(block, y);
      RowsCompact(block, y + 1);
      RowsPrepend(RowOf(block, y), RowsFrom(block, y + 1));
    }
  }

  lemma RowsPrepend(row: seq<Element>, rows: seq<seq<Element>>)
    ensures NormalRows([row] + rows) == [NormalRow(row)] + NormalRows(rows)
  {
    assert ([row] + rows)[1..] == rows;
  }

  lemma CompactTiles(cells: seq<Cell>, rowCount: nat, columnCount: nat)
    requires Tiles(cells, rowCount, columnCount)
    ensures Tiles(CompactCells(cells), rowCount, columnCount)
  {
    var after := CompactCells(cells);
    forall k, i, j | 0 <= k < |cells| ensures Covers(after[k], i, j) <==> Covers(cells[k], i, j) {
      assert after[k] == CompactCell(cells[k]);
    }
    forall i, j | 0 <= i < rowCount && 0 <= j < columnCount ensures Occupied(after, i, j) {
      assert Occupied(cells, i, j);
      var k :| 0 <= k < |cells| && Covers(cells[k], i, j);
      assert Covers(after[k], i, j);
    }
  }

  // A cell as it is laid out again: its text compacted.
  function PrintedAnchor(cell: Cell, headerRowCount: nat): Anchor {
    AnchorOf(CompactCell(cell), headerRowCount)
  }

  lemma CompactAnchors(cells: seq<Cell>, headerRowCount: nat)
    ensures (set cell | cell in CompactCells(cells) :: AnchorOf(cell, headerRowCount))
         == set cell | cell in cells :: PrintedAnchor(cell, headerRowCount)
  {
    var after := CompactCells(cells);
    forall cell | cell in cells ensures CompactCell(cell) in after {
      var k :| 0 <= k < |cells| && cells[k] == cell;
      assert after[k] == CompactCell(cell);
    }
    forall cell | cell in after ensures exists other :: other in cells && cell == CompactCell(other) {
      var k :| 0 <= k < |after| && after[k] == cell;
      assert cells[k] in cells;
    }
  }

  // The whole way round: a table is accepted, printed as text, read, and laid out by the standard's
  // algorithm, and every cell is back at its row and column with its spans, its words and its heading.
  lemma PrintedTableRelayout(table: RawTable, block: TableBlock, id: string)
    requires BlockOf(table, block) && WithinLimits(block.cells)
    ensures var read := ReadTable(PrintTable(id, Rows(block)));
      read.Some? && read.value.0 == id
      && FormTable(read.value.1) ==
           Layout(set cell | cell in block.cells :: PrintedAnchor(cell, block.headerRowCount), block.columnCount, block.rowCount, false)
  {
    TableRead(id, Rows(block));
    CompactedRelayout(block);
  }

  lemma CompactedRelayout(block: TableBlock)
    requires Tiles(block.cells, block.rowCount, block.columnCount) && WithinLimits(block.cells)
    requires block.rowCount > 0 && block.columnCount > 0
    ensures FormTable(NormalRows(Rows(block))) ==
      Layout(set cell | cell in block.cells :: PrintedAnchor(cell, block.headerRowCount), block.columnCount, block.rowCount, false)
  {
    RowsCompact(block, 0);
    CompactTiles(block.cells, block.rowCount, block.columnCount);
    CompactAnchors(block.cells, block.headerRowCount);
    Relayout(Compacted(block));
  }

  // In terms of the table: each box that was detected is laid out at its own row and column, with the
  // words extracted there, as a heading in the header rows and the first column; and nothing else is.
  lemma PrintedTexts(table: RawTable, block: TableBlock, id: string, r: nat, c: nat)
    requires BlockOf(table, block) && WithinLimits(block.cells)
    ensures var read := ReadTable(PrintTable(id, Rows(block)));
      read.Some? && (Detected(table, r, c) <==> exists a :: a in FormTable(read.value.1).anchors && a.x == c && a.y == r)
      && forall a :: a in FormTable(read.value.1).anchors && a.x == c && a.y == r ==>
           && (a.heading <==> r < block.headerRowCount || c == 0)
           && exists text :: HoldsText(table, r, c, text) && a.text == Join(Words(text), ' ')
  {
    PrintedTableRelayout(table, block, id);
    forall cell | cell in block.cells
      ensures Detected(table, cell.row, cell.column) && HoldsText(table, cell.row, cell.column, cell.text)
              && PrintedAnchor(cell, block.headerRowCount).text == Join(Words(cell.text), ' ')
    {
      BlockCell(table, block, cell);
      CompactIsWords(cell.text);
    }
    if Detected(table, r, c) {
      var cell := DetectedCell(table, block, r, c);
      var a := PrintedAnchor(cell, block.headerRowCount);
      assert a.x == c && a.y == r;
    }
  }

  lemma BlockCell(table: RawTable, block: TableBlock, cell: Cell)
    requires BlockOf(table, block) && cell in block.cells
    ensures Detected(table, cell.row, cell.column) && HoldsText(table, cell.row, cell.column, cell.text)
  {
    var grid :| BlockOn(table, grid, block);
    var k :| 0 <= k < |block.cells| && block.cells[k] == cell;
    assert CellOf(table, grid, block.cells[k]);
  }

  lemma DetectedCell(table: RawTable, block: TableBlock, r: nat, c: nat) returns (cell: Cell)
    requires BlockOf(table, block) && Detected(table, r, c)
    ensures cell in block.cells && cell.row == r && cell.column == c
  {
    var grid :| BlockOn(table, grid, block);
    assert Earlier(r, c, |table.rows|, 0);
    assert HasCellAt(block.cells, r, c);
    var k :| 0 <= k < |block.cells| && block.cells[k].row == r && block.cells[k].column == c;
    cell := block.cells[k];
  }
}
