/**
 * The text helpers of source/libs/StringUtils.js: formatForTsv and
 * parseTsvRow, which escape a value for a tab-separated file and split a
 * row of such a file back into unescaped fields, and removeEmptyRows,
 * which drops the blank lines of a text.
 */
module TextRows {
  import opened JsStrings

  /**
   * formatForTsv: tabs, then backslashes, then line feeds, then carriage
   * returns are replaced by their two-character escapes.
   */
  function FormatForTsv(s: string): string
  {
    var s1 := ReplaceAll(s, "\t", "\\t");
    var s2 := ReplaceAll(s1, "\\", "\\\\");
    var s3 := ReplaceAll(s2, "\n", "\\n");
    ReplaceAll(s3, "\r", "\\r")
  }

  /**
   * The four replacements the loop of parseTsvRow makes in a field:
   * `\t` to a tab, then `\\` to a backslash, then `\n` to a line feed,
   * then `\r` to a carriage return.
   */
  function UnescapeField(field: string): string
  {
    var f1 := ReplaceAll(field, "\\t", "\t");
    var f2 := ReplaceAll(f1, "\\\\", "\\");
    var f3 := ReplaceAll(f2, "\\n", "\n");
    ReplaceAll(f3, "\\r", "\r")
  }

  /** What parseTsvRow returns: the tab-separated fields of the row, one more than its tabs, each unescaped. */
  function ParsedRow(s: string): (fields: seq<string>)
    ensures |fields| == CountChar(s, '\t') + 1
  {
    var parts := Split(s, '\t');
    seq(|parts|, i requires 0 <= i < |parts| => UnescapeField(parts[i]))
  }

  /**
   * parseTsvRow: the row is split on tabs into an array, and the loop
   * overwrites each element with its unescaped value.
   */
  method ParseTsvRow(s: string) returns (fields: seq<string>)
    ensures fields == ParsedRow(s)
    ensures |fields| == CountChar(s, '\t') + 1
  {
    var parts := Split(s, '\t');
    var a := new string[|parts|](i requires 0 <= i < |parts| => parts[i]);
    var i := 0;
    while i < a.Length
      invariant 0 <= i <= a.Length == |parts|
      invariant forall j :: 0 <= j < i ==> a[j] == UnescapeField(parts[j])
      invariant forall j :: i <= j < a.Length ==> a[j] == parts[j]
    {
      a[i] := ReplaceAll(a[i], "\\t", "\t");
      a[i] := ReplaceAll(a[i], "\\\\", "\\");
      a[i] := ReplaceAll(a[i], "\\n", "\n");
      a[i] := ReplaceAll(a[i], "\\r", "\r");
      i := i + 1;
    }
    fields := a[..];
  }

  /** The output of formatForTsv holds no tab, line feed or carriage return, so it fits in one TSV cell. */
  lemma FormatForTsvHasNoControlCharacters(s: string)
    ensures '\t' !in FormatForTsv(s) && '\n' !in FormatForTsv(s) && '\r' !in FormatForTsv(s)
  {
    var s1 := ReplaceAll(s, "\t", "\\t");
    var s2 := ReplaceAll(s1, "\\", "\\\\");
    var s3 := ReplaceAll(s2, "\n", "\\n");
    ReplaceAllRemoves(s, '\t', "\\t");
    ReplaceAllKeepsAbsent(s1, "\\", "\\\\", '\t');
    ReplaceAllRemoves(s2, '\n', "\\n");
    ReplaceAllKeepsAbsent(s2, "\n", "\\n", '\t');
    ReplaceAllRemoves(s3, '\r', "\\r");
    ReplaceAllKeepsAbsent(s3, "\r", "\\r", '\t');
    ReplaceAllKeepsAbsent(s3, "\r", "\\r", '\n');
  }

  /** Every line feed and carriage return replaced by its escape, and nothing else changed. */
  function EscapeLineBreaks(s: string): string
  {
    if s == [] then ""
    else (if s[0] == '\n' then "\\n" else if s[0] == '\r' then "\\r" else [s[0]]) + EscapeLineBreaks(s[1..])
  }

  /** Every carriage return replaced by its escape, and nothing else changed. */
  function EscapeReturns(s: string): string
  {
    if s == [] then ""
    else (if s[0] == '\r' then "\\r" else [s[0]]) + EscapeReturns(s[1..])
  }

  /** The line-feed and carriage-return steps of formatForTsv escape the line breaks. */
  lemma {:induction false} ReplacingLineBreaks(s: string)
    ensures ReplaceAll(ReplaceAll(s, "\n", "\\n"), "\r", "\\r") == EscapeLineBreaks(s)
    decreases |s|
  {
    if s != [] {
      ReplacingLineBreaks(s[1..]);
      var head := if s[0] == '\n' then "\\n" else [s[0]];
      assert s[..1] == [s[0]];
      assert ReplaceAll(s, "\n", "\\n") == head + ReplaceAll(s[1..], "\n", "\\n");
      ReplaceCharAppend(head, ReplaceAll(s[1..], "\n", "\\n"), '\r', "\\r");
      if s[0] == '\n' {
        assert ReplaceAll("\\n", "\r", "\\r") == "\\n";
      } else {
        assert [s[0]][..1] == [s[0]];
      }
    }
  }

  /** Without tabs or backslashes, formatForTsv only escapes the line breaks. */
  lemma FormatWithoutTabsOrBackslashes(s: string)
    requires '\t' !in s && '\\' !in s
    ensures FormatForTsv(s) == EscapeLineBreaks(s)
  {
    ReplaceAllWithoutPattern(s, "\t", "\\t");
    ReplaceAllWithoutPattern(s, "\\", "\\\\");
    ReplacingLineBreaks(s);
  }

  /**
   * An escape pattern `\x` whose x is neither n nor r finds nothing in
   * escaped line breaks of a string without backslashes.
   */
  lemma {:induction false} OtherEscapesAbsent(s: string, x: char, rep: string)
    requires '\\' !in s && x != 'n' && x != 'r'
    ensures ReplaceAll(EscapeLineBreaks(s), ['\\', x], rep) == EscapeLineBreaks(s)
    decreases |s|
  {
    if s != [] {
      OtherEscapesAbsent(s[1..], x, rep);
      var rest := EscapeLineBreaks(s[1..]);
      if s[0] == '\n' || s[0] == '\r' {
        var e := if s[0] == '\n' then 'n' else 'r';
        assert EscapeLineBreaks(s) == ['\\', e] + rest;
        assert (['\\', e] + rest)[..2] == ['\\', e];
        assert (['\\', e] + rest)[1..] == [e] + rest;
        ReplaceAllSkips([e] + rest, ['\\', x], rep);
        assert ([e] + rest)[1..] == rest;
      } else {
        assert EscapeLineBreaks(s) == [s[0]] + rest;
        ReplaceAllSkips([s[0]] + rest, ['\\', x], rep);
        assert ([s[0]] + rest)[1..] == rest;
      }
    }
  }

  /** The `\n` step of parseTsvRow undoes the line-feed escapes and keeps the carriage-return ones. */
  lemma {:induction false} UnescapingLineFeeds(s: string)
    requires '\\' !in s
    ensures ReplaceAll(EscapeLineBreaks(s), "\\n", "\n") == EscapeReturns(s)
    decreases |s|
  {
    if s != [] {
      UnescapingLineFeeds(s[1..]);
      var rest := EscapeLineBreaks(s[1..]);
      if s[0] == '\n' {
        assert EscapeLineBreaks(s) == "\\n" + rest;
        assert ("\\n" + rest)[..2] == "\\n";
        assert ("\\n" + rest)[2..] == rest;
      } else if s[0] == '\r' {
        assert EscapeLineBreaks(s) == "\\r" + rest;
        assert ("\\r" + rest)[..2] == "\\r";
        assert ("\\r" + rest)[1..] == "r" + rest;
        ReplaceAllSkips("r" + rest, "\\n", "\n");
        assert ("r" + rest)[1..] == rest;
      } else {
        assert EscapeLineBreaks(s) == [s[0]] + rest;
        ReplaceAllSkips([s[0]] + rest, "\\n", "\n");
        assert ([s[0]] + rest)[1..] == rest;
      }
    }
  }

  /** The `\r` step of parseTsvRow undoes the carriage-return escapes. */
  lemma {:induction false} UnescapingReturns(s: string)
    requires '\\' !in s
    ensures ReplaceAll(EscapeReturns(s), "\\r", "\r") == s
    decreases |s|
  {
    if s != [] {
      UnescapingReturns(s[1..]);
      var rest := EscapeReturns(s[1..]);
      if s[0] == '\r' {
        assert EscapeReturns(s) == "\\r" + rest;
        assert ("\\r" + rest)[..2] == "\\r";
        assert ("\\r" + rest)[2..] == rest;
      } else {
        assert EscapeReturns(s) == [s[0]] + rest;
        ReplaceAllSkips([s[0]] + rest, "\\r", "\r");
        assert ([s[0]] + rest)[1..] == rest;
      }
      assert s == [s[0]] + s[1..];
    }
  }

  /**
   * A value without tabs and backslashes survives the trip through a TSV
   * cell: parsing its formatted form gives back exactly that one field.
   */
  lemma TsvRoundTrip(s: string)
    requires '\t' !in s && '\\' !in s
    ensures ParsedRow(FormatForTsv(s)) == [s]
  {
    var cell := FormatForTsv(s);
    FormatWithoutTabsOrBackslashes(s);
    FormatForTsvHasNoControlCharacters(s);
    SplitWithoutSeparator(cell, '\t');
    OtherEscapesAbsent(s, 't', "\t");
    OtherEscapesAbsent(s, '\\', "\\");
    UnescapingLineFeeds(s);
    UnescapingReturns(s);
    assert UnescapeField(cell) == s;
  }

  /**
   * The full round trip fails for a tab: formatForTsv escapes the tab
   * before the backslashes, so the tab becomes backslash, backslash, t,
   * which parses back as a backslash followed by a tab.
   */
  lemma TabDoesNotRoundTrip()
    ensures FormatForTsv("\t") == "\\\\t"
    ensures ParsedRow(FormatForTsv("\t")) == ["\\\t"]
    ensures ParsedRow(FormatForTsv("\t")) != ["\t"]
  {
    assert ReplaceAll("\t", "\t", "\\t") == "\\t";
    assert ReplaceAll("\\t", "\\", "\\\\") == "\\\\t";
    assert ReplaceAll("\\\\t", "\n", "\\n") == "\\\\t";
    assert ReplaceAll("\\\\t", "\r", "\\r") == "\\\\t";
    SplitWithoutSeparator("\\\\t", '\t');
    assert ReplaceAll("\\\\t", "\\t", "\t") == "\\\t";
    assert ReplaceAll("\\\t", "\\\\", "\\") == "\\\t";
    assert ReplaceAll("\\\t", "\\n", "\n") == "\\\t";
    assert ReplaceAll("\\\t", "\\r", "\r") == "\\\t";
    assert UnescapeField("\\\\t") == "\\\t";
  }

  /** A row that `trim` reduces to the empty string. */
  predicate IsBlankRow(row: string)
  {
    Trim(row) == ""
  }

  /** The rows that are not blank, in their original order. */
  function NonBlankRows(rows: seq<string>): (kept: seq<string>)
    ensures |kept| <= |rows|
    ensures forall i :: 0 <= i < |kept| ==> !IsBlankRow(kept[i]) && kept[i] in rows
  {
    if rows == [] then []
    else (if IsBlankRow(rows[0]) then [] else [rows[0]]) + NonBlankRows(rows[1..])
  }

  /** Filtering a concatenation filters each part. */
  lemma {:induction false} NonBlankRowsAppend(a: seq<string>, b: seq<string>)
    ensures NonBlankRows(a + b) == NonBlankRows(a) + NonBlankRows(b)
    decreases |a|
  {
    if a == [] {
      assert a + b == b;
    } else {
      NonBlankRowsAppend(a[1..], b);
      var head := if IsBlankRow(a[0]) then [] else [a[0]];
      assert (a + b)[0] == a[0] && (a + b)[1..] == a[1..] + b;
      calc {
        NonBlankRows(a + b);
        head + NonBlankRows(a[1..] + b);
        head + (NonBlankRows(a[1..]) + NonBlankRows(b));
        (head + NonBlankRows(a[1..])) + NonBlankRows(b);
      }
    }
  }

  /** Rows that are all non-blank are kept as they are. */
  lemma {:induction false} NonBlankRowsOfNonBlank(rows: seq<string>)
    requires forall i :: 0 <= i < |rows| ==> !IsBlankRow(rows[i])
    ensures NonBlankRows(rows) == rows
    decreases |rows|
  {
    if rows != [] {
      NonBlankRowsOfNonBlank(rows[1..]);
      assert rows == [rows[0]] + rows[1..];
    }
  }

  /** What removeEmptyRows returns: the non-blank lines joined by line feeds, and a final line feed. */
  function RemovedEmptyRows(s: string): (r: string)
    ensures |r| > 0 && r[|r| - 1] == '\n'
  {
    Join(NonBlankRows(Split(s, '\n')), '\n') + "\n"
  }

  /**
   * removeEmptyRows: the text is split into lines, and a loop from the last
   * line down to the first splices out every blank one before the join.
   */
  method RemoveEmptyRows(s: string) returns (result: string)
    ensures result == RemovedEmptyRows(s)
  {
    var rows := Split(s, '\n');
    ghost var original := rows;
    var i := |rows| - 1;
    while i >= 0
      invariant -1 <= i < |original|
      invariant rows == original[..i + 1] + NonBlankRows(original[i + 1..])
      invariant rows[..i + 1] == original[..i + 1]
      invariant forall j :: i + 1 <= j < |rows| ==> !IsBlankRow(rows[j])
      decreases i + 1
    {
      var rest := NonBlankRows(original[i + 1..]);
      assert rows[i] == original[i];
      assert original[i..] == [original[i]] + original[i + 1..];
      assert original[..i + 1] == original[..i] + [original[i]];
      if Trim(rows[i]) == "" {
        rows := rows[..i] + rows[i + 1..];
        assert rows == original[..i] + rest;
      } else {
        assert rows == original[..i] + ([original[i]] + rest);
      }
      i := i - 1;
    }
    assert original[..0] == [] && original[0..] == original;
    result := Join(rows, '\n') + "\n";
  }

  /**
   * The lines of the result, its final line feed aside, are exactly the
   * non-blank lines of the input in their order; with none, the result is
   * a lone line feed.
   */
  lemma RemovedEmptyRowsLines(s: string)
    ensures NonBlankRows(Split(s, '\n')) == [] ==> RemovedEmptyRows(s) == "\n"
    ensures NonBlankRows(Split(s, '\n')) != [] ==>
      Split(RemovedEmptyRows(s)[..|RemovedEmptyRows(s)| - 1], '\n') == NonBlankRows(Split(s, '\n'))
  {
    var kept := NonBlankRows(Split(s, '\n'));
    var r := RemovedEmptyRows(s);
    assert r[..|r| - 1] == Join(kept, '\n');
    if kept != [] {
      SplitJoin(kept, '\n');
    }
  }

  /** Removing the empty rows a second time changes nothing. */
  lemma RemoveEmptyRowsIdempotent(s: string)
    ensures RemovedEmptyRows(RemovedEmptyRows(s)) == RemovedEmptyRows(s)
  {
    var kept := NonBlankRows(Split(s, '\n'));
    var joined := Join(kept, '\n');
    var r := RemovedEmptyRows(s);
    assert r == joined + ['\n'];
    SplitTrailingSeparator(joined, '\n');
    assert NonBlankRows([""]) == [] by {
      assert IsBlankRow("");
    }
    if kept != [] {
      SplitJoin(kept, '\n');
      NonBlankRowsAppend(kept, [""]);
      NonBlankRowsOfNonBlank(kept);
      assert NonBlankRows(Split(r, '\n')) == kept;
    } else {
      assert Split(joined, '\n') == [""];
      NonBlankRowsAppend([""], [""]);
      assert NonBlankRows(Split(r, '\n')) == [];
    }
  }
}
