/** The row handlers of the `/upload` route (server.js:888-926) and of the
    `/check` route (server.js:968-979): choosing the column that holds the
    domains from the first row, and turning cells into bare domains. Rows are
    taken as already tokenised, one `seq<string>` per non-empty CSV line. */
module CsvDomains {
  import opened Wrappers
  import opened Strings

  type Row = seq<string>

  /** The header literals `['domain', 'website', 'url']`. */
  const HeaderNames: seq<string> := ["domain", "website", "url"]

  /** A cell that reads as a header literal once lower-cased. */
  predicate NamesHeader(cell: string) {
    Lower(cell) in HeaderNames
  }

  /** The first-row heuristic: the lower-cased cell contains a dot, no space
      and no `@`, and is not a header literal. */
  predicate LooksLikeDomain(cell: string) {
    var c := Lower(cell);
    Contains(c, ".") && !Contains(c, " ") && !Contains(c, "@") && c !in HeaderNames
  }

  /** The two scans of the first row. */
  datatype Scan = DomainLike | HeaderLiteral

  predicate Passes(scan: Scan, cell: string) {
    match scan
    case DomainLike => LooksLikeDomain(cell)
    case HeaderLiteral => NamesHeader(cell)
  }

  /** The index of the first cell at or after `from` that passes the scan. */
  function FindFirst(row: Row, scan: Scan, from: nat): (r: Option<nat>)
    requires from <= |row|
    ensures r.Some? ==> from <= r.value < |row| && Passes(scan, row[r.value])
    ensures r.Some? ==> forall j :: from <= j < r.value ==> !Passes(scan, row[j])
    ensures r.None? ==> forall j :: from <= j < |row| ==> !Passes(scan, row[j])
    decreases |row| - from
  {
    if from == |row| then None
    else if Passes(scan, row[from]) then Some(from)
    else FindFirst(row, scan, from + 1)
  }

  /** The column chosen from the first row: the first domain-like cell, else
      the first header literal, else column 2. */
  function DomainColumn(row: Row): nat {
    match FindFirst(row, DomainLike, 0)
    case Some(i) => i
    case None =>
      match FindFirst(row, HeaderLiteral, 0)
      case Some(i) => i
      case None => 2
  }

  /** The chosen column, stated case by case: it is the least domain-like
      cell when there is one, otherwise the least header literal when there
      is one, otherwise 2; in the first two cases it is a cell of the row. */
  lemma DomainColumnCases(row: Row)
    ensures (exists i :: 0 <= i < |row| && LooksLikeDomain(row[i])) ==>
              var c := DomainColumn(row);
              c < |row| && LooksLikeDomain(row[c]) && forall j :: 0 <= j < c ==> !LooksLikeDomain(row[j])
    ensures (forall i :: 0 <= i < |row| ==> !LooksLikeDomain(row[i])) &&
            (exists i :: 0 <= i < |row| && NamesHeader(row[i])) ==>
              var c := DomainColumn(row);
              c < |row| && NamesHeader(row[c]) && forall j :: 0 <= j < c ==> !NamesHeader(row[j])
    ensures (forall i :: 0 <= i < |row| ==> !LooksLikeDomain(row[i] ) && !NamesHeader(row[i])) ==>
              DomainColumn(row) == 2
  {
    var d := FindFirst(row, DomainLike, 0);
    var h := FindFirst(row, HeaderLiteral, 0);
    if d.None? && h.Some? {
      assert DomainColumn(row) == h.value;
    }
  }

  /** No cell is both a header literal and domain-like. */
  lemma HeaderNotDomainLike(cell: string)
    ensures !(NamesHeader(cell) && LooksLikeDomain(cell))
  {
  }

  /** A domain-like cell wins over a header literal to its left: when the
      first cell names the column (`domain`) and a later cell looks like a
      domain, the header column is not the one chosen. */
  lemma DomainLikeBeatsHeader(row: Row, j: nat)
    requires 0 < j < |row| && NamesHeader(row[0]) && LooksLikeDomain(row[j])
    ensures 0 < DomainColumn(row) <= j && LooksLikeDomain(row[DomainColumn(row)])
  {
    HeaderNotDomainLike(row[0]);
    DomainColumnCases(row);
  }

  /** The column detection of the upload handler: two left-to-right scans
      that stop at the first hit, then the default. */
  method DetectDomainColumn(row: Row) returns (domainCol: nat)
    ensures domainCol == DomainColumn(row)
  {
    var found: Option<nat> := None;
    var i := 0;
    while i < |row|
      invariant 0 <= i <= |row|
      invariant forall j :: 0 <= j < i ==> !LooksLikeDomain(row[j])
      invariant found.None?
    {
      if LooksLikeDomain(row[i]) {
        found := Some(i);
        break;
      }
      i := i + 1;
    }
    if found.None? {
      i := 0;
      while i < |row|
        invariant 0 <= i <= |row|
        invariant forall j :: 0 <= j < i ==> !NamesHeader(row[j])
        invariant found.None?
      {
        if NamesHeader(row[i]) {
          found := Some(i);
          break;
        }
        i := i + 1;
      }
    }
    domainCol := found.GetOr(2);
  }

  /** `row[domainCol]`: undefined past the end of the row. */
  function CellAt(row: Row, col: nat): Option<string> {
    if col < |row| then Some(row[col]) else None
  }

  /** `row[domainCol] || ''` */
  function CellText(row: Row, col: nat): string {
    CellAt(row, col).GetOr("")
  }

  /** `.replace(/^https?:\/\//, '')`: one leading `https://` or `http://`,
      matched case-sensitively; any other text is left as it is. */
  function StripScheme(s: string): (r: string)
    ensures |r| <= |s| && r == s[|s| - |r|..]
    ensures !StartsWith(s, "https://") && !StartsWith(s, "http://") ==> r == s
  {
    if StartsWith(s, "https://") then s[8..]
    else if StartsWith(s, "http://") then s[7..]
    else s
  }

  /** `.replace(/\/$/, '')`: one trailing slash, and nothing else. */
  function StripSlash(s: string): (r: string)
    ensures |s| - 1 <= |r| <= |s| && r == s[..|r|]
    ensures r == s <==> !(|s| > 0 && s[|s| - 1] == '/')
  {
    if |s| > 0 && s[|s| - 1] == '/' then s[..|s| - 1] else s
  }

  /** The cell handling of both handlers: a missing or empty cell, or one
      that reads `domain` once lower-cased, is skipped; otherwise the cell is
      trimmed, stripped of its scheme and of one trailing slash, and kept
      when something is left. What is kept is a non-empty block of the cell. */
  function NormalizeCell(cell: Option<string>): (r: Option<string>)
    ensures r.Some? ==> cell.Some? && cell.value != "" && Lower(cell.value) != "domain"
    ensures r.Some? ==> |r.value| > 0 && Contains(cell.value, r.value)
  {
    if cell.None? || cell.value == "" || Lower(cell.value) == "domain" then None
    else
      var t := Trim(cell.value);
      var d := StripSlash(StripScheme(t));
      if d == "" then None
      else
        KeptBlock(cell.value, t, d);
        Some(d)
  }

  /** The kept text comes from the trimmed cell, which comes from the cell. */
  lemma KeptBlock(cell: string, t: string, d: string)
    requires t == Trim(cell) && d == StripSlash(StripScheme(t))
    ensures Contains(cell, d)
  {
    var i :| TrimmedAt(cell, t, i);
    ContainsAt(cell, t, i);
    PrefixOfSuffix(t, StripScheme(t), d);
    ContainsTrans(cell, t, d);
  }

  /** A prefix of a suffix of t is a block of t. */
  lemma PrefixOfSuffix(t: string, u: string, d: string)
    requires |u| <= |t| && u == t[|t| - |u|..]
    requires |d| <= |u| && d == u[..|d|]
    ensures Contains(t, d)
  {
    var k := |t| - |u|;
    assert t[k..k + |d|] == d;
    ContainsAt(t, d, k);
  }

  /** A URL cell gives back its host part: a cell `https://` or `http://`,
      then d, then `/`, is normalised to d whenever d is non-empty. */
  lemma NormalizeUrl(scheme: string, d: string)
    requires scheme == "https://" || scheme == "http://"
    requires |d| > 0
    ensures NormalizeCell(Some(scheme + d + "/")) == Some(d)
  {
    var rest := d + "/";
    assert scheme + d + "/" == scheme + rest;
    if scheme == "https://" {
      StripHttps(rest);
    } else {
      StripHttp(rest);
    }
    SchemedCell(scheme + rest, d);
  }

  /** A cell starting with `h`, whose scheme strip leaves d and a `/`. */
  lemma SchemedCell(s: string, d: string)
    requires |s| > 6 && s[0] == 'h' && StripScheme(s) == d + "/" && |d| > 0
    ensures NormalizeCell(Some(s)) == Some(d)
  {
    assert s[|s| - 1] == (d + "/")[|d|];
    TrimUntouched(s);
    assert StripSlash(d + "/") == d by {
      assert (d + "/")[..|d|] == d;
    }
    assert Lower(s) != "domain" by {
      assert |Lower(s)| > 6;
    }
    NormalizeOf(s, d);
  }

  /** The kept case of the cell handling, spelled out. */
  lemma NormalizeOf(cell: string, d: string)
    requires Lower(cell) != "domain" && StripSlash(StripScheme(Trim(cell))) == d && d != ""
    ensures NormalizeCell(Some(cell)) == Some(d)
  {
  }

  lemma StripHttps(rest: string)
    ensures StripScheme("https://" + rest) == rest
  {
    var s := "https://" + rest;
    assert s[..8] == "https://";
    StartsWithPrefix(s, "https://");
  }

  lemma StripHttp(rest: string)
    ensures StripScheme("http://" + rest) == rest
  {
    var s := "http://" + rest;
    assert s[..7] == "http://";
    StartsWithPrefix(s, "http://");
    StartsWithPrefix(s, "https://");
    assert s[4] == ':';
  }

  /** A string that neither starts nor ends with white space is its own trim. */
  lemma TrimUntouched(s: string)
    requires |s| > 0 && !IsWhitespace(s[0]) && !IsWhitespace(s[|s| - 1])
    ensures Trim(s) == s
  {
    var i :| TrimmedAt(s, Trim(s), i);
    assert i == 0;
    assert i + |Trim(s)| == |s|;
  }

  /** One space on either side of a cell is trimmed away. */
  lemma TrimPadded(c: string)
    requires |c| > 0 && !IsWhitespace(c[0]) && !IsWhitespace(c[|c| - 1])
    ensures Trim(" " + c + " ") == c
  {
    var s := " " + c + " ";
    assert s[1..] == c + " ";
    assert TrimStart(s) == c + " ";
    assert (c + " ")[..|c|] == c;
    assert TrimEnd(c + " ") == c;
  }

  /** A cell that is a plain text c with one space on each side is kept as
      c, whatever c says. */
  lemma PaddedCellKept(c: string)
    requires |c| > 0 && !IsWhitespace(c[0]) && !IsWhitespace(c[|c| - 1])
    requires c[0] != 'h' && c[|c| - 1] != '/'
    ensures NormalizeCell(Some(" " + c + " ")) == Some(c)
  {
    var s := " " + c + " ";
    TrimPadded(c);
    assert StripScheme(c) == c by {
      StartsWithPrefix(c, "https://");
      StartsWithPrefix(c, "http://");
    }
    assert Lower(s) != "domain" by {
      assert Lower(s)[0] == ' ';
    }
    NormalizeOf(s, c);
  }

  /** The `domain` test is made before trimming, so a padded header cell is
      kept: ` domain ` becomes the domain `domain`. */
  lemma PaddedHeaderKept()
    ensures NormalizeCell(Some(" domain ")) == Some("domain")
  {
    assert " domain " == " " + "domain" + " ";
    PaddedCellKept("domain");
  }

  /** What one row contributes: its normalised cell at the column, if kept. */
  function Kept(row: Row, col: nat): (r: seq<string>)
    ensures |r| <= 1 && forall k :: 0 <= k < |r| ==> |r[k]| > 0
  {
    match NormalizeCell(CellAt(row, col))
    case Some(d) => [d]
    case None => []
  }

  /** The domains of the rows, in row order. */
  function ExtractDomains(rows: seq<Row>, col: nat): (ds: seq<string>)
    ensures |ds| <= |rows|
    ensures forall k :: 0 <= k < |ds| ==> |ds[k]| > 0
  {
    if rows == [] then [] else Kept(rows[0], col) + ExtractDomains(rows[1..], col)
  }

  /** Extraction row by row from the front: one more row appends its domain. */
  lemma {:induction false} ExtractSnoc(rows: seq<Row>, row: Row, col: nat)
    ensures ExtractDomains(rows + [row], col) == ExtractDomains(rows, col) + Kept(row, col)
  {
    if rows != [] {
      assert (rows + [row])[1..] == rows[1..] + [row];
      ExtractSnoc(rows[1..], row, col);
    }
  }

  /** Extraction over a window of the rows grows by the window's next row. */
  lemma ExtractStep(rows: seq<Row>, lo: nat, hi: nat, col: nat)
    requires lo <= hi < |rows|
    ensures ExtractDomains(rows[lo..hi + 1], col) == ExtractDomains(rows[lo..hi], col) + Kept(rows[hi], col)
  {
    assert rows[lo..hi + 1] == rows[lo..hi] + [rows[hi]];
    ExtractSnoc(rows[lo..hi], rows[hi], col);
  }

  /** The domains the upload handler lists: the chosen column of every row
      after the first. */
  function UploadDomains(rows: seq<Row>): seq<string> {
    if rows == [] then [] else ExtractDomains(rows[1..], DomainColumn(rows[0]))
  }

  /** The domains the check handler lists with the column col: the first row
      is skipped only when its cell at col is a header literal. */
  function CheckDomains(rows: seq<Row>, col: nat): seq<string> {
    if rows != [] && NamesHeader(CellText(rows[0], col)) then ExtractDomains(rows[1..], col)
    else ExtractDomains(rows, col)
  }

  /** One row of either handler: the normalised cell is pushed, if kept. */
  method KeepCell(domains: seq<string>, row: Row, col: nat) returns (r: seq<string>)
    ensures r == domains + Kept(row, col)
  {
    var cell := NormalizeCell(CellAt(row, col));
    r := domains;
    if cell.Some? {
      r := r + [cell.value];
    }
  }

  /** The `/upload` row handler over all rows, then the column it stores for
      the file (`null` when the file has no rows). */
  method UploadHandler(rows: seq<Row>) returns (domainCol: Option<nat>, domains: seq<string>)
    ensures rows == [] ==> domainCol == None
    ensures rows != [] ==> domainCol == Some(DomainColumn(rows[0]))
    ensures domains == UploadDomains(rows)
  {
    domainCol := None;
    domains := [];
    var rowCount := 0;
    while rowCount < |rows|
      invariant 0 <= rowCount <= |rows|
      invariant rowCount == 0 ==> domainCol == None && domains == []
      invariant rowCount > 0 ==> domainCol == Some(DomainColumn(rows[0]))
      invariant rowCount > 0 ==> domains == ExtractDomains(rows[1..rowCount], domainCol.value)
    {
      var row := rows[rowCount];
      rowCount := rowCount + 1;
      if rowCount == 1 {
        var col := DetectDomainColumn(row);
        domainCol := Some(col);
      } else {
        var col := domainCol.value;
        domains := KeepCell(domains, row, col);
        ExtractStep(rows, 1, rowCount - 1, col);
      }
    }
    if rows != [] {
      assert rows[1..rowCount] == rows[1..];
    }
  }

  /** The `/check` row handler over all rows, with the column the upload
      stored for the file, or 2 when it stored none (`?? 2`). */
  method CheckHandler(rows: seq<Row>, stored: Option<nat>) returns (domains: seq<string>)
    ensures domains == CheckDomains(rows, stored.GetOr(2))
  {
    var domainCol := stored.GetOr(2);
    domains := [];
    var rowCount := 0;
    while rowCount < |rows|
      invariant 0 <= rowCount <= |rows|
      invariant domains == if rowCount > 0 && NamesHeader(CellText(rows[0], domainCol))
                           then ExtractDomains(rows[1..rowCount], domainCol)
                           else ExtractDomains(rows[0..rowCount], domainCol)
    {
      var row := rows[rowCount];
      rowCount := rowCount + 1;
      if rowCount == 1 && NamesHeader(CellText(row, domainCol)) {
        assert rows[1..rowCount] == [];
        continue;
      }
      domains := KeepCell(domains, row, domainCol);
      if rowCount > 1 && NamesHeader(CellText(rows[0], domainCol)) {
        ExtractStep(rows, 1, rowCount - 1, domainCol);
      } else {
        ExtractStep(rows, 0, rowCount - 1, domainCol);
      }
    }
    assert rows[0..rowCount] == rows;
  }

  /** The check of a file lists what its upload listed, preceded by the first
      row's own domain unless that row's cell in the stored column is a
      header literal. */
  lemma CheckAfterUpload(rows: seq<Row>)
    requires rows != []
    ensures var col := DomainColumn(rows[0]);
            CheckDomains(rows, col)
            == (if NamesHeader(CellText(rows[0], col)) then [] else Kept(rows[0], col)) + UploadDomains(rows)
  {
  }

  /** Hence the two counts differ by at most one. */
  lemma CountsClose(rows: seq<Row>)
    requires rows != []
    ensures var col := DomainColumn(rows[0]);
            |UploadDomains(rows)| <= |CheckDomains(rows, col)| <= |UploadDomains(rows)| + 1
  {
    CheckAfterUpload(rows);
  }

  /** A first row whose chosen cell looks like a domain is listed by the
      check but not by the upload: the check has exactly one more domain,
      and it contains a dot. */
  lemma DomainLikeFirstRowCounted(rows: seq<Row>)
    requires rows != []
    requires var col := DomainColumn(rows[0]); col < |rows[0]| && LooksLikeDomain(rows[0][col])
    ensures var col := DomainColumn(rows[0]);
            var ds := CheckDomains(rows, col);
            |ds| == |UploadDomains(rows)| + 1 && '.' in ds[0] && ds[1..] == UploadDomains(rows)
  {
    var col := DomainColumn(rows[0]);
    var cell := rows[0][col];
    HeaderNotDomainLike(cell);
    DomainLikeKept(cell);
    CheckAfterUpload(rows);
  }

  /** A domain-like cell survives the cell handling, dot included. */
  lemma DomainLikeKept(cell: string)
    requires LooksLikeDomain(cell)
    ensures NormalizeCell(Some(cell)).Some? && '.' in NormalizeCell(Some(cell)).value
  {
    var low := Lower(cell);
    ContainsChar(low, '.');
    var p :| 0 <= p < |low| && low[p] == '.';
    assert cell[p] == '.';
    assert Lower(cell) != "domain" by {
      assert '.' !in "domain";
    }
    var t := Trim(cell);
    DotSurvivesTrim(cell, t, p);
    var d := StripSlash(StripScheme(t));
    DotSurvivesStrip(t);
    NormalizeOf(cell, d);
  }

  lemma DotSurvivesTrim(s: string, t: string, p: int)
    requires t == Trim(s) && 0 <= p < |s| && s[p] == '.'
    ensures '.' in t
  {
    var i :| TrimmedAt(s, t, i);
    assert !IsWhitespace(s[p]);
    assert i <= p < i + |t|;
    assert t[p - i] == '.';
  }

  lemma DotSurvivesStrip(t: string)
    requires '.' in t
    ensures '.' in StripSlash(StripScheme(t))
  {
    var u := StripScheme(t);
    if StartsWith(t, "https://") {
      StartsWithPrefix(t, "https://");
      DotAfterPrefix(t, 8);
    } else if StartsWith(t, "http://") {
      StartsWithPrefix(t, "http://");
      DotAfterPrefix(t, 7);
    }
    DotSurvivesSlash(u);
  }

  lemma DotSurvivesSlash(u: string)
    requires '.' in u
    ensures '.' in StripSlash(u)
  {
    var p :| 0 <= p < |u| && u[p] == '.';
    if |u| > 0 && u[|u| - 1] == '/' {
      assert p < |u| - 1;
      assert u[..|u| - 1][p] == '.';
    }
  }

  /** A dot that is not in the first k characters is after them. */
  lemma DotAfterPrefix(t: string, k: nat)
    requires k <= |t| && '.' in t && '.' !in t[..k]
    ensures '.' in t[k..]
  {
    assert t == t[..k] + t[k..];
  }
}
