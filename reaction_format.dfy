/** The output format the prompt asks the model for, one `username: message`
    line per reaction, and the proof that the reaction parser reads a
    completion in that format back record for record. */
module ReactionFormat {
  import opened JsString
  import opened ReactionParser
  import opened Optional
  import opened Seqs

  /** One line in the requested format. */
  function FormatLine(r: Reaction): string {
    r.name + ": " + r.content
  }

  function FormatLines(rs: seq<Reaction>): (r: seq<string>)
    ensures |r| == |rs|
    ensures forall k :: 0 <= k < |rs| ==> r[k] == FormatLine(rs[k])
  {
    if rs == [] then [] else FormatLines(rs[..|rs| - 1]) + [FormatLine(rs[|rs| - 1])]
  }

  /** The whole completion: the lines joined by newlines. */
  function FormatCompletion(rs: seq<Reaction>): string {
    Join(FormatLines(rs), '\n')
  }

  /** A record the format can carry unchanged: a non-empty trimmed name with
      no colon, no list-marker first character, none of the characters the
      parser strips from names and at most 40 characters; a non-empty trimmed
      message; neither of them holding a line terminator or a '<'. */
  predicate Readable(r: Reaction) {
    && |r.name| > 0 && IsTrimmed(r.name) && WellFormedName(r.name)
    && !IsMarker(r.name[0]) && ':' !in r.name
    && NoLineTerminator(r.name) && '<' !in r.name
    && |r.content| > 0 && IsTrimmed(r.content)
    && NoLineTerminator(r.content) && '<' !in r.content
  }

  /** The layout of a formatted line: trimmed, on one line, with its first
      usable colon right after the name. */
  lemma FormatLineLayout(r: Reaction)
    requires Readable(r)
    ensures var s := FormatLine(r);
      && IsTrimmed(s) && NoLineTerminator(s) && |s| > 0 && !IsMarker(s[0])
      && FirstColon(s, 0, |r.name|)
      && s[..|r.name|] == r.name && s[|r.name| + 1..] == [' '] + r.content
  {
    var n, b := r.name, r.content;
    var s := FormatLine(r);
    assert s == n + ([':', ' '] + b);
    assert s[0] == n[0] && s[|s| - 1] == b[|b| - 1];
    assert forall i :: 0 <= i < |n| ==> s[i] == n[i];
    assert forall i :: |n| + 2 <= i < |s| ==> s[i] == b[i - |n| - 2];
    assert s[..|n|] == n;
    assert s[|n| + 1..] == [' '] + b;
  }

  /** The line pattern splits a formatted line into its name and message. */
  lemma MatchFormatLine(r: Reaction)
    requires Readable(r)
    ensures MatchLine(FormatLine(r)) == Some((r.name, r.content))
  {
    FormatLineLayout(r);
    FirstColonSplit(FormatLine(r));
    assert TrimStart([' '] + r.content) == TrimStart(r.content);
    TrimStartOfTrimmed(r.content);
  }

  /** A list marker and the space after it are not part of the name: a
      formatted line behind any run of the characters `[\d.*-]` and one
      space is read as the same record. */
  lemma ListMarkerSkipped(m: string, r: Reaction)
    requires Readable(r)
    requires forall i :: 0 <= i < |m| ==> IsMarker(m[i])
    ensures MatchLine(m + " " + FormatLine(r)) == Some((r.name, r.content))
  {
    var line := FormatLine(r);
    FormatLineLayout(r);
    ListLinePrefixEnd(m, line);
    SpaceTail(r.content);
    NameAfterPrefix(m + " ", line, |r.name|, r.content);
  }

  /** The list-marker group takes the markers and the space after them. */
  lemma ListLinePrefixEnd(m: string, line: string)
    requires forall i :: 0 <= i < |m| ==> IsMarker(m[i])
    requires |line| > 0 && !IsWhitespace(line[0])
    ensures PrefixEnd(m + " " + line) == |m| + 1
  {
    var s := m + " " + line;
    MarkerRunTo(s, 0, |m|);
    assert s[|m|..] == [' '] + line;
    TrimStartOfTrimmed(line);
  }

  /** After a prefix, a name up to the first colon, with the tail `body`
      after that colon. */
  lemma NameAfterPrefix(pre: string, line: string, c: nat, body: string)
    requires 0 < c < |line| && line[c] == ':' && !IsLineTerminator(line[0])
    requires forall q :: 0 < q < c ==> line[q] != ':' && !IsLineTerminator(line[q])
    requires Tail(line[c + 1..]) == Some(body)
    ensures NameAt(pre + line, |pre|) == Some((line[..c], body))
  {
    var s := pre + line;
    var n := |pre|;
    assert s[n + c + 1..] == line[c + 1..];
    assert forall q :: n + 1 <= q < n + c ==> s[q] == line[q - n];
    LazyNameReaches(s, n, n + 1, n + c);
    assert s[n..n + c] == line[..c];
  }

  /** A formatted line is classified as the record it was made from. */
  lemma ClassifyFormatLine(r: Reaction, noise: set<char>)
    requires Readable(r) && ':' !in noise
    ensures LineKindOf(FormatLine(r), noise) == Named(r.name, r.content)
  {
    var s := FormatLine(r);
    FormatLineLayout(r);
    MatchFormatLine(r);
    TrimOfTrimmed(s);
    assert !IsNoiseLine(s, noise) by { assert s[|r.name|] !in noise; }
    TrimOfTrimmed(r.name);
    TrimOfTrimmed(r.content);
  }

  /** Lines in the format are read back as the records they came from. */
  lemma {:induction false} ParseFormatLines(rs: seq<Reaction>, noise: set<char>)
    requires forall k :: 0 <= k < |rs| ==> Readable(rs[k])
    requires ':' !in noise
    ensures ParseLines(FormatLines(rs), noise) == rs
    decreases |rs|
  {
    if rs != [] {
      var init, last := rs[..|rs| - 1], rs[|rs| - 1];
      ParseFormatLines(init, noise);
      SnocSplit(rs);
      ParseFormatStep(init, last, noise);
    }
  }

  /** One more formatted line is read back as one more record. */
  lemma ParseFormatStep(init: seq<Reaction>, last: Reaction, noise: set<char>)
    requires ParseLines(FormatLines(init), noise) == init
    requires Readable(last) && ':' !in noise
    ensures ParseLines(FormatLines(init + [last]), noise) == init + [last]
  {
    FrontOfSnoc(init, last);
    assert FormatLines(init + [last]) == FormatLines(init) + [FormatLine(last)];
    ParseLinesSnoc(FormatLines(init), FormatLine(last), noise);
    ClassifyFormatLine(last, noise);
    StepNamed(init, FormatLine(last), noise);
  }

  /** No piece and not the separator holds `c`, so the joined text does not. */
  lemma {:induction false} JoinAvoids(parts: seq<string>, sep: char, c: char)
    requires c != sep
    requires NoPartHolds(parts, c)
    ensures c !in Join(parts, sep)
    decreases |parts|
  {
    if |parts| > 1 {
      JoinAvoids(parts[1..], sep, c);
    }
  }

  /** No piece holds the character `c`. */
  predicate NoPartHolds(parts: seq<string>, c: char) {
    forall k :: 0 <= k < |parts| ==> c !in parts[k]
  }

  /** The joined text starts with the first piece. */
  lemma {:induction false} JoinStarts(parts: seq<string>, sep: char)
    requires |parts| >= 1 && |parts[0]| > 0
    ensures |Join(parts, sep)| > 0 && Join(parts, sep)[0] == parts[0][0]
  {
  }

  /** The joined text ends with the last piece. */
  lemma {:induction false} JoinEnds(parts: seq<string>, sep: char)
    requires |parts| >= 1 && |parts[|parts| - 1]| > 0
    ensures var j := Join(parts, sep); |j| > 0 && j[|j| - 1] == parts[|parts| - 1][|parts[|parts| - 1]| - 1]
    decreases |parts|
  {
    if |parts| > 1 {
      JoinEnds(parts[1..], sep);
    }
  }

  /** A formatted line holds no newline and no '<'. */
  lemma FormatLineFree(r: Reaction)
    requires Readable(r)
    ensures '\n' !in FormatLine(r) && '<' !in FormatLine(r)
  {
    assert FormatLine(r) == r.name + ([':', ' '] + r.content);
    assert '\n' !in r.name && '\n' !in r.content;
  }

  /** The formatted lines hold no newline and no '<'. */
  lemma FormatLinesFree(rs: seq<Reaction>)
    requires forall k :: 0 <= k < |rs| ==> Readable(rs[k])
    ensures NoPartHolds(FormatLines(rs), '\n') && NoPartHolds(FormatLines(rs), '<')
  {
    var lines := FormatLines(rs);
    forall k | 0 <= k < |lines|
      ensures '\n' !in lines[k] && '<' !in lines[k]
    {
      FormatLineFree(rs[k]);
    }
  }

  /** A formatted line starts and ends with a character that is not
      whitespace. */
  lemma FormatLineEnds(r: Reaction)
    requires Readable(r)
    ensures var s := FormatLine(r); |s| > 0 && !IsWhitespace(s[0]) && !IsWhitespace(s[|s| - 1])
  {
    FormatLineLayout(r);
  }

  /** A formatted completion is already trimmed. */
  lemma FormatCompletionTrimmed(rs: seq<Reaction>)
    requires |rs| >= 1
    requires forall k :: 0 <= k < |rs| ==> Readable(rs[k])
    ensures IsTrimmed(FormatCompletion(rs))
  {
    var lines := FormatLines(rs);
    FormatLineEnds(rs[0]);
    FormatLineEnds(rs[|rs| - 1]);
    JoinStarts(lines, '\n');
    JoinEnds(lines, '\n');
  }

  /** A formatted completion is left as it is by the cleaning step: it holds
      no tag and is already trimmed. */
  lemma FormatCompletionClean(rs: seq<Reaction>)
    requires |rs| >= 1
    requires forall k :: 0 <= k < |rs| ==> Readable(rs[k])
    ensures CleanCompletion(FormatCompletion(rs)) == FormatCompletion(rs)
  {
    var text := FormatCompletion(rs);
    FormatLinesFree(rs);
    JoinAvoids(FormatLines(rs), '\n', '<');
    FormatCompletionTrimmed(rs);
    TrimOfTrimmed(text);
  }

  /** Round trip: a completion made of readable records in the requested
      format, however many, is parsed back into exactly those records, in
      order, whatever the noise class (as long as it has no colon). */
  lemma CompletionRoundTrip(rs: seq<Reaction>, noise: set<char>)
    requires |rs| >= 1
    requires forall k :: 0 <= k < |rs| ==> Readable(rs[k])
    requires ':' !in noise
    ensures ParseLines(CompletionLines(FormatCompletion(rs)), noise) == rs
  {
    FormatLinesFree(rs);
    FormatCompletionClean(rs);
    CleanLinesSplitBack(FormatLines(rs));
    ParseFormatLines(rs, noise);
  }

  /** Lines without a newline whose joined text the cleaning step leaves as
      it is are split back into themselves. */
  lemma CleanLinesSplitBack(lines: seq<string>)
    requires |lines| >= 1 && NoPartHolds(lines, '\n')
    requires CleanCompletion(Join(lines, '\n')) == Join(lines, '\n')
    ensures CompletionLines(Join(lines, '\n')) == lines
  {
    SplitJoin(lines, '\n');
  }
}
