/** The reaction parser of `generateDiscordChat` (index.js 368-419): it turns a
    model completion into `name: message` records, line by line, and then picks
    the records to display.

    The scan has two states, "no current message" and "accumulating a
    message". In the source the current message is an object that is also the
    last element of `parsedMessages`, so every update of it is an update of
    that last element; the model writes it that way. */
module ReactionParser {
  import opened JsString
  import opened Optional
  import opened Seqs

  /** One parsed chat line: who says it and what they say. */
  datatype Reaction = Reaction(name: string, content: string)

  /** The display name given to a line read while no message is open. */
  const FallbackName: string := "User"
  /** Names longer than this are cut. */
  const MaxNameLength: nat := 40
  /** What a blank line contributes to the open message. */
  const ParagraphBreak: string := "\n\n"

  const OpenTag: string := "<discordchat>"
  const CloseTag: string := "</discordchat>"

  /** The four characters removed from a name. */
  predicate IsNameNoise(c: char) {
    c == '*' || c == '_' || c == '"' || c == '`'
  }

  predicate WellFormedName(name: string) {
    |name| <= MaxNameLength && forall i :: 0 <= i < |name| ==> !IsNameNoise(name[i])
  }

  // ---------------------------------------------------------------------
  // Cleaning: `result.replace(/<\/?discordchat>/gi, '').trim()`
  // ---------------------------------------------------------------------

  /** `tag` (written in lower case) starts `s`, letters compared as the `i`
      flag compares them: ASCII letters fold, nothing else does. */
  predicate TagPrefix(s: string, tag: string) {
    |tag| <= |s| && forall i :: 0 <= i < |tag| ==> LowerChar(s[i]) == tag[i]
  }

  /** A spelling of one of the two tags, in any mix of letter case. */
  predicate IsTagSpelling(t: string) {
    (|t| == |OpenTag| && TagPrefix(t, OpenTag)) || (|t| == |CloseTag| && TagPrefix(t, CloseTag))
  }

  /** The global replace scans left to right and removes each tag it meets;
      text that forms a tag only once another tag is removed stays. */
  function StripTags(s: string): (r: string)
    ensures |r| <= |s|
    ensures '<' !in s ==> r == s
    decreases |s|
  {
    if |s| == 0 then ""
    else if TagPrefix(s, OpenTag) then assert LowerChar(s[0]) == '<'; StripTags(s[|OpenTag|..])
    else if TagPrefix(s, CloseTag) then assert LowerChar(s[0]) == '<'; StripTags(s[|CloseTag|..])
    else [s[0]] + StripTags(s[1..])
  }

  /** Every occurrence of a tag is removed, wherever it stands and whatever
      its letter case: the text around it is cleaned as if it were absent. */
  lemma StripTagsRemovesTag(a: string, t: string, b: string)
    requires IsTagSpelling(t)
    ensures StripTags(a + t + b) == StripTags(a) + StripTags(b)
  {
    assert t[0] == '<' by { assert LowerChar(t[0]) == '<'; }
    assert a + t + b == a + (t + b);
    StripTagsSplitAtLt(a, t + b);
    StripTagsAtTag(t, b);
  }

  /** No tag reaches across a '<': the text before a '<' is cleaned on its own. */
  lemma {:induction false} StripTagsSplitAtLt(a: string, c: string)
    requires c == [] || c[0] == '<'
    ensures StripTags(a + c) == StripTags(a) + StripTags(c)
    decreases |a|
  {
    if |a| == 0 {
      assert a + c == c;
    } else if c == [] {
      assert a + c == a;
    } else {
      var k := FirstSkip(a);
      StripTagsFirstStep(a, c);
      assert (a + c)[k..] == a[k..] + c;
      StripTagsSplitAtLt(a[k..], c);
    }
  }

  /** How many characters the first step of `StripTags` consumes. */
  function FirstSkip(s: string): nat {
    if TagPrefix(s, OpenTag) then |OpenTag| else if TagPrefix(s, CloseTag) then |CloseTag| else 1
  }

  /** The first step on `a + c` is the first step on `a` when `c` starts
      with '<': a tag at the front cannot reach into `c`. */
  lemma StripTagsFirstStep(a: string, c: string)
    requires |a| > 0 && |c| > 0 && c[0] == '<'
    ensures FirstSkip(a + c) == FirstSkip(a) <= |a|
    ensures var k := FirstSkip(a);
      var kept := if k == 1 then [a[0]] else "";
      StripTags(a + c) == kept + StripTags((a + c)[k..]) && StripTags(a) == kept + StripTags(a[k..])
  {
    var s := a + c;
    assert s[0] == a[0];
    if TagPrefix(s, OpenTag) {
      TagStaysInside(a, c, OpenTag);
      TagPrefixOfLonger(a, c, OpenTag);
    } else if TagPrefix(s, CloseTag) {
      TagStaysInside(a, c, CloseTag);
      TagPrefixOfLonger(a, c, CloseTag);
      if |OpenTag| <= |a| {
        TagPrefixOfLonger(a, c, OpenTag);
      }
    } else {
      if |OpenTag| <= |a| {
        TagPrefixOfLonger(a, c, OpenTag);
      }
      if |CloseTag| <= |a| {
        TagPrefixOfLonger(a, c, CloseTag);
      }
    }
  }


  /** A text that starts with a tag is cleaned as the text after the tag. */
  lemma StripTagsAtTag(t: string, b: string)
    requires IsTagSpelling(t)
    ensures StripTags(t + b) == StripTags(b)
  {
    var s := t + b;
    if |t| == |OpenTag| && TagPrefix(t, OpenTag) {
      TagPrefixOfLonger(t, b, OpenTag);
      assert s[|OpenTag|..] == b;
    } else {
      assert !TagPrefix(s, OpenTag) by { assert LowerChar(s[1]) == '/'; }
      TagPrefixOfLonger(t, b, CloseTag);
      assert s[|CloseTag|..] == b;
    }
  }

  /** Whether a tag starts a text depends only on the text's first characters. */
  lemma TagPrefixOfLonger(x: string, y: string, tag: string)
    requires |tag| <= |x|
    ensures TagPrefix(x + y, tag) <==> TagPrefix(x, tag)
  {
    assert forall i :: 0 <= i < |tag| ==> (x + y)[i] == x[i];
  }

  /** A tag matched at the start of `a + rest`, where `rest` starts with '<',
      lies inside `a`: no tag has '<' after its first position. */
  lemma TagStaysInside(a: string, rest: string, tag: string)
    requires tag == OpenTag || tag == CloseTag
    requires |a| > 0 && |rest| > 0 && rest[0] == '<'
    requires TagPrefix(a + rest, tag)
    ensures |tag| <= |a|
  {
    var s := a + rest;
    assert s[|a|] == '<';
    assert LowerChar(s[|a|]) == '<';
    assert forall i :: 1 <= i < |tag| ==> tag[i] != '<';
  }

  /** The text the line scan runs over. */
  function CleanCompletion(result: string): string {
    Trim(StripTags(result))
  }

  /** The lines of the cleaned completion, split on '\n' only. */
  function CompletionLines(result: string): (r: seq<string>)
    ensures |r| >= 1
    ensures forall k :: 0 <= k < |r| ==> '\n' !in r[k]
    ensures Join(r, '\n') == CleanCompletion(result)
  {
    Split(CleanCompletion(result), '\n')
  }

  // ---------------------------------------------------------------------
  // The line pattern `^(?:[\d\.\-\*]*\s*)?(.+?):\s*(.+)$` (index.js 386)
  //
  // Backtracking order: the optional list-marker group is tried first, its
  // marker run greedily longest first, then its whitespace run longest first;
  // for every way of ending the group the lazy name grows one character at a
  // time from length 1, and at each colon the tail `\s*(.+)$` is tried. Because
  // a marker character is never whitespace, the candidate name starts come in
  // strictly descending order from the end of the longest marker-and-space
  // prefix down to 0 (skipping the group starts at 0 again, so it adds
  // nothing). The name therefore ends at the FIRST usable colon after the
  // last start that has one.
  // ---------------------------------------------------------------------

  predicate IsMarker(c: char) {
    IsDigit(c) || c == '.' || c == '-' || c == '*'
  }

  /** Length of the run of list-marker characters starting at `i`. */
  function MarkerRun(s: string, i: nat): (n: nat)
    requires i <= |s|
    ensures i + n <= |s|
    ensures i + n == |s| || !IsMarker(s[i + n])
    decreases |s| - i
  {
    if i < |s| && IsMarker(s[i]) then 1 + MarkerRun(s, i + 1) else 0
  }

  /** Length of the whitespace run starting at `i`. */
  function SpaceRun(s: string, i: nat): (n: nat)
    requires i <= |s|
    ensures i + n <= |s|
  {
    |s[i..]| - |TrimStart(s[i..])|
  }

  /** After the whitespace run comes what `trimStart` keeps. */
  lemma SpaceRunEnd(s: string, i: nat)
    requires i <= |s|
    ensures s[i + SpaceRun(s, i)..] == TrimStart(s[i..])
  {
    TrimStartDropsWhitespace(s[i..]);
  }

  /** `\s*(.+)$` on the text `r` after the colon, with `\s*` holding the
      first `j` characters: `.+` must run to the end without a line
      terminator; otherwise `\s*` gives one character back. */
  function TailFrom(r: string, j: nat): (m: Option<string>)
    requires j <= |r|
    ensures m.Some? ==> |m.value| >= 1 && NoLineTerminator(m.value)
    decreases j
  {
    if j < |r| && NoLineTerminator(r[j..]) then Some(r[j..])
    else if j == 0 then None
    else TailFrom(r, j - 1)
  }

  function Tail(r: string): Option<string> {
    TailFrom(r, SpaceRun(r, 0))
  }

  /** `(.+?):` followed by the tail, the name running from `start` to just
      before `c`; a failed attempt makes the name one character longer. */
  function LazyName(s: string, start: nat, c: nat): Option<(string, string)>
    requires start < c <= |s|
    decreases |s| - c
  {
    if c < |s| && s[c] == ':' && Tail(s[c + 1..]).Some? then Some((s[start..c], Tail(s[c + 1..]).value))
    else if c < |s| && !IsLineTerminator(s[c]) then LazyName(s, start, c + 1)
    else None
  }

  /** The match with the name starting at `start`, if there is one. */
  function NameAt(s: string, start: nat): Option<(string, string)>
    requires start <= |s|
  {
    if start < |s| && !IsLineTerminator(s[start]) then LazyName(s, start, start + 1) else None
  }

  /** Name starts tried in descending order from `start`. */
  function NameFrom(s: string, start: nat): Option<(string, string)>
    requires start <= |s|
    decreases start
  {
    match NameAt(s, start)
    case Some(m) => Some(m)
    case None => if start == 0 then None else NameFrom(s, start - 1)
  }

  /** Where the list-marker group ends when it takes as much as it can. */
  function PrefixEnd(s: string): (n: nat)
    ensures n <= |s|
  {
    MarkerRun(s, 0) + SpaceRun(s, MarkerRun(s, 0))
  }

  /** The two capture groups of the line pattern, or None when it fails. */
  function MatchLine(s: string): Option<(string, string)> {
    NameFrom(s, PrefixEnd(s))
  }

  /** What a successful match is made of: a name of at least one character
      with no line terminator, ending just before a colon at `c`, and a tail
      of at least one character that is a suffix of the text after the colon
      and runs to the end of the line. */
  predicate IsSplit(s: string, start: nat, c: nat, name: string, body: string) {
    && start < c < |s| && s[c] == ':'
    && name == s[start..c] && NoLineTerminator(name)
    && |body| >= 1 && NoLineTerminator(body)
    && exists k :: c < k <= |s| && body == s[k..]
  }

  lemma {:induction false} TailShape(r: string, j: nat)
    requires j <= |r|
    requires TailFrom(r, j).Some?
    ensures exists k :: 0 <= k < |r| && TailFrom(r, j).value == r[k..]
    decreases j
  {
    if !(j < |r| && NoLineTerminator(r[j..])) {
      TailShape(r, j - 1);
    }
  }

  lemma {:induction false} LazyNameShape(s: string, start: nat, c: nat)
    requires start < c <= |s|
    requires NoLineTerminator(s[start..c])
    requires LazyName(s, start, c).Some?
    ensures exists c': nat :: IsSplit(s, start, c', LazyName(s, start, c).value.0, LazyName(s, start, c).value.1)
    decreases |s| - c
  {
    if c < |s| && s[c] == ':' && Tail(s[c + 1..]).Some? {
      var r := s[c + 1..];
      TailShape(r, SpaceRun(r, 0));
      var k :| 0 <= k < |r| && Tail(r).value == r[k..];
      assert Tail(r).value == s[c + 1 + k..];
      assert IsSplit(s, start, c, s[start..c], Tail(r).value);
    } else {
      assert s[start..c + 1] == s[start..c] + [s[c]];
      LazyNameShape(s, start, c + 1);
    }
  }

  lemma {:induction false} NameFromShape(s: string, start: nat)
    requires start <= |s|
    requires NameFrom(s, start).Some?
    ensures exists st: nat, c: nat :: st <= start && IsSplit(s, st, c, NameFrom(s, start).value.0, NameFrom(s, start).value.1)
    decreases start
  {
    if NameAt(s, start).Some? {
      LazyNameShape(s, start, start + 1);
    } else {
      NameFromShape(s, start - 1);
    }
  }

  /** Every match splits the line at a colon into a non-empty name and a
      non-empty body that runs to the end of the line. */
  lemma MatchLineShape(s: string)
    requires MatchLine(s).Some?
    ensures exists st: nat, c: nat :: IsSplit(s, st, c, MatchLine(s).value.0, MatchLine(s).value.1)
  {
    NameFromShape(s, PrefixEnd(s));
  }

  /** On a trimmed line without line terminators, the tail after a colon is
      the text after it with its leading whitespace dropped, and exists as
      soon as that text is not empty. */
  lemma TailOfPlainText(r: string)
    requires |r| >= 1 && NoLineTerminator(r) && !IsWhitespace(r[|r| - 1])
    ensures Tail(r) == Some(TrimStart(r))
  {
    var j := SpaceRun(r, 0);
    SpaceRunEnd(r, 0);
    TrimStartDropsWhitespace(r);
    assert j < |r|;
    assert forall i :: 0 <= i < |r[j..]| ==> r[j..][i] == r[j + i];
  }

  /** The colon the lazy name stops at: the first one after the start that
      still has a character after it. */
  predicate FirstColon(s: string, start: nat, c: nat) {
    start < c < |s| - 1 && s[c] == ':' && forall q :: start < q < c ==> s[q] != ':'
  }

  lemma {:induction false} LazyNameFirstColon(s: string, start: nat, c: nat, d: nat)
    requires IsTrimmed(s) && NoLineTerminator(s)
    requires FirstColon(s, start, c) && start < d <= c
    ensures LazyName(s, start, d) == Some((s[start..c], TrimStart(s[c + 1..])))
    decreases c - d
  {
    if d == c {
      TailOfPlainText(s[c + 1..]);
    } else {
      assert s[d] != ':';
      if d == |s| - 1 {
        assert false;
      }
      if d < |s| - 1 && s[d] == ':' {
        assert false;
      }
      LazyNameFirstColon(s, start, c, d + 1);
    }
  }

  lemma {:induction false} LazyNameNoColon(s: string, start: nat, d: nat)
    requires NoLineTerminator(s)
    requires start < d <= |s|
    requires forall q :: d <= q < |s| - 1 ==> s[q] != ':'
    ensures LazyName(s, start, d).None?
    decreases |s| - d
  {
    if d < |s| {
      if d == |s| - 1 {
        assert s[d + 1..] == [];
      }
      LazyNameNoColon(s, start, d + 1);
    }
  }

  /** The split is at the first colon, not the last: on a trimmed line with
      no line terminators that starts with neither a list marker nor
      whitespace, the name is everything before the first colon that has at
      least one character before and after it, and the body is what follows
      that colon with its leading whitespace dropped. Without such a colon
      there is no match. */
  lemma FirstColonSplit(s: string)
    requires IsTrimmed(s) && NoLineTerminator(s)
    requires |s| > 0 && !IsMarker(s[0])
    ensures forall c: nat :: FirstColon(s, 0, c) ==> MatchLine(s) == Some((s[..c], TrimStart(s[c + 1..])))
    ensures (forall q :: 1 <= q < |s| - 1 ==> s[q] != ':') ==> MatchLine(s).None?
  {
    assert MarkerRun(s, 0) == 0;
    assert SpaceRun(s, 0) == 0;
    assert PrefixEnd(s) == 0;
    forall c: nat | FirstColon(s, 0, c)
      ensures MatchLine(s) == Some((s[..c], TrimStart(s[c + 1..])))
    {
      LazyNameFirstColon(s, 0, c, 1);
    }
    if forall q :: 1 <= q < |s| - 1 ==> s[q] != ':' {
      LazyNameNoColon(s, 0, 1);
    }
  }

  /** The backtracking order shows through: when a line opens with a run of
      list-marker characters followed directly by the colon, as in "12: x",
      the name start after the run fails (no colon follows it), the start
      one character earlier is tried next and succeeds, and the name is the
      last marker character alone ("2", not "12"). */
  lemma NumberedNameLosesDigit(m: string, body: string)
    requires |m| >= 1 && forall i :: 0 <= i < |m| ==> IsMarker(m[i])
    requires |body| > 0 && IsTrimmed(body) && NoLineTerminator(body) && ':' !in body
    ensures MatchLine(m + ": " + body) == Some(([m[|m| - 1]], body))
  {
    var line := ": " + body;
    var s := m + line;
    var n := |m|;
    AppendAssoc(m, ": ", body);
    MarkerColonPrefixEnd(m, line);
    NoNameAtColon(m, body);
    ColonLineLayout(m, body);
    SpaceTail(body);
    LazyNameReaches(s, n - 1, n, n);
    NameFromSkips(s, n);
  }

  /** Where the colon, the space and the last marker of such a line are. */
  lemma ColonLineLayout(m: string, body: string)
    requires |m| >= 1 && IsMarker(m[|m| - 1])
    ensures var s := m + (": " + body); var n := |m|;
      && s[n] == ':' && s[n + 1..] == [' '] + body
      && s[n - 1..n] == [m[n - 1]] && !IsLineTerminator(s[n - 1])
  {
  }

  /** A start where no name matches passes the search on to the start one
      character earlier. */
  lemma NameFromSkips(s: string, n: nat)
    requires 1 <= n <= |s| && NameAt(s, n).None?
    ensures NameFrom(s, n) == NameFrom(s, n - 1)
  {
  }

  /** The tail after a colon: one space, then a trimmed one-line body. */
  lemma SpaceTail(body: string)
    requires |body| > 0 && IsTrimmed(body) && NoLineTerminator(body)
    ensures Tail([' '] + body) == Some(body)
  {
    TailOfPlainText([' '] + body);
    TrimStartOfTrimmed(body);
  }

  /** Markers directly followed by a colon: the marker group ends at the
      colon. */
  lemma MarkerColonPrefixEnd(m: string, line: string)
    requires forall i :: 0 <= i < |m| ==> IsMarker(m[i])
    requires |line| > 0 && line[0] == ':'
    ensures PrefixEnd(m + line) == |m|
  {
    var s := m + line;
    MarkerRunTo(s, 0, |m|);
    assert s[|m|..] == line;
    TrimStartOfTrimmed(line);
  }

  /** A name cannot start at the colon when no other colon follows. */
  lemma NoNameAtColon(m: string, body: string)
    requires forall i :: 0 <= i < |m| ==> IsMarker(m[i])
    requires NoLineTerminator(body) && ':' !in body
    ensures NameAt(m + (": " + body), |m|).None?
  {
    var s := m + (": " + body);
    var n := |m|;
    assert forall q :: n + 2 <= q < |s| ==> s[q] == body[q - n - 2];
    assert forall q :: 0 <= q < n ==> s[q] == m[q];
    assert NoLineTerminator(s);
    LazyNameNoColon(s, n, n + 1);
  }

  /** A run of list-marker characters from `i` up to a character that is
      not one. */
  lemma {:induction false} MarkerRunTo(s: string, i: nat, k: nat)
    requires i <= k < |s| && !IsMarker(s[k])
    requires forall q :: i <= q < k ==> IsMarker(s[q])
    ensures MarkerRun(s, i) == k - i
    decreases k - i
  {
    if i < k {
      MarkerRunTo(s, i + 1, k);
    }
  }

  /** The lazy name grows over characters that are neither a colon nor a
      line terminator up to a colon whose tail matches. */
  lemma {:induction false} LazyNameReaches(s: string, start: nat, d: nat, c: nat)
    requires start < d <= c < |s| && s[c] == ':' && Tail(s[c + 1..]).Some?
    requires forall q :: d <= q < c ==> s[q] != ':' && !IsLineTerminator(s[q])
    ensures LazyName(s, start, d) == Some((s[start..c], Tail(s[c + 1..]).value))
    decreases c - d
  {
    if d < c {
      LazyNameReaches(s, start, d + 1, c);
    }
  }

  // ---------------------------------------------------------------------
  // One line of the scan (index.js 376-401)
  // ---------------------------------------------------------------------

  /** `replace(/[\*_\"`]/g, '')`. */
  function StripNameNoise(s: string): (r: string)
    ensures |r| <= |s|
    ensures forall i :: 0 <= i < |r| ==> !IsNameNoise(r[i])
    ensures (forall i :: 0 <= i < |s| ==> !IsNameNoise(s[i])) ==> r == s
  {
    if |s| == 0 then ""
    else if IsNameNoise(s[0]) then StripNameNoise(s[1..])
    else [s[0]] + StripNameNoise(s[1..])
  }

  /** The display name made from the first capture group: trimmed, then
      stripped of `*`, `_`, `"` and backtick, then cut to 40 characters.
      Trimming comes first, so the result can still have spaces at its ends,
      and it can be empty. */
  function CleanName(group: string): (r: string)
    ensures WellFormedName(r)
  {
    var n := StripNameNoise(Trim(group));
    if |n| > MaxNameLength then n[..MaxNameLength] else n
  }

  /** `^[...]+$` over the noise class, which is a parameter: see README. */
  predicate IsNoiseLine(t: string, noise: set<char>) {
    |t| > 0 && forall i :: 0 <= i < |t| ==> t[i] in noise
  }

  /** The noise class exactly as the pattern at index.js 382 spells it: the
      ellipsis there is stored as the three characters a UTF-8 "…" turns
      into when read as Windows-1252, so the class holds full stop, 'â',
      '€', '¦', hyphen and underscore, and not '…'. */
  const NoiseAsWritten: set<char> := {'.', '\U{00E2}', '\U{20AC}', '\U{00A6}', '-', '_'}

  /** The class evidently meant: full stop, '…', hyphen and underscore. */
  const NoiseIntended: set<char> := {'.', '\U{2026}', '-', '_'}

  const Ellipsis: string := "\U{2026}"

  /** What the scan makes of one trimmed line. */
  datatype LineKind = Blank | Noise | Named(name: string, body: string) | Unmatched

  function Classify(t: string, noise: set<char>): (k: LineKind)
    ensures k.Blank? <==> t == ""
    ensures k.Noise? <==> t != "" && IsNoiseLine(t, noise)
    ensures k.Named? <==> t != "" && !IsNoiseLine(t, noise) && MatchLine(t).Some?
    ensures k.Named? ==> WellFormedName(k.name)
  {
    if t == "" then Blank
    else if IsNoiseLine(t, noise) then Noise
    else match MatchLine(t)
      case Some(m) => Named(CleanName(m.0), Trim(m.1))
      case None => Unmatched
  }

  /** The records with the last one's content extended by `more`. */
  function AppendToLast(parsed: seq<Reaction>, more: string): (r: seq<Reaction>)
    requires |parsed| > 0
    ensures |r| == |parsed| && r[..|r| - 1] == parsed[..|parsed| - 1]
    ensures r[|r| - 1] == Reaction(parsed[|parsed| - 1].name, parsed[|parsed| - 1].content + more)
  {
    var last := parsed[|parsed| - 1];
    parsed[..|parsed| - 1] + [Reaction(last.name, last.content + more)]
  }

  /** The scan's effect of one raw line on the records read so far; the open
      message, when there is one, is the last record. */
  function Step(parsed: seq<Reaction>, line: string, noise: set<char>): seq<Reaction> {
    var t := Trim(line);
    match Classify(t, noise)
    case Blank =>
      if |parsed| > 0 && !EndsWith(parsed[|parsed| - 1].content, ParagraphBreak)
      then AppendToLast(parsed, ParagraphBreak) else parsed
    case Noise => parsed
    case Named(name, body) => parsed + [Reaction(name, body)]
    case Unmatched =>
      if |parsed| > 0 then AppendToLast(parsed, " " + t)
      else parsed + [Reaction(FallbackName, t)]
  }

  /** The records after scanning `lines` in order. */
  function ParseLines(lines: seq<string>, noise: set<char>): seq<Reaction>
    decreases |lines|
  {
    if lines == [] then []
    else Step(ParseLines(lines[..|lines| - 1], noise), lines[|lines| - 1], noise)
  }

  /** The loop of index.js 376-401. */
  method ParseCompletion(result: string, noise: set<char>) returns (parsed: seq<Reaction>)
    ensures parsed == ParseLines(CompletionLines(result), noise)
  {
    var cleanResult := Trim(StripTags(result));
    var lines := Split(cleanResult, '\n');
    parsed := [];
    var i := 0;
    while i < |lines|
      invariant 0 <= i <= |lines|
      invariant parsed == ParseLines(lines[..i], noise)
    {
      assert lines[..i + 1] == lines[..i] + [lines[i]];
      ParseLinesSnoc(lines[..i], lines[i], noise);
      var trimmedLine := Trim(lines[i]);
      if trimmedLine == "" {
        if |parsed| > 0 && !EndsWith(parsed[|parsed| - 1].content, ParagraphBreak) {
          parsed := AppendToLast(parsed, ParagraphBreak);
        }
      } else if IsNoiseLine(trimmedLine, noise) {
        // noise: skipped
      } else {
        var m := MatchLine(trimmedLine);
        if m.Some? {
          var name := CleanName(m.value.0);
          var content := Trim(m.value.1);
          parsed := parsed + [Reaction(name, content)];
        } else if |parsed| > 0 {
          parsed := AppendToLast(parsed, " " + trimmedLine);
        } else {
          parsed := parsed + [Reaction(FallbackName, trimmedLine)];
        }
      }
      i := i + 1;
    }
    assert lines[..|lines|] == lines;
  }

  // ---------------------------------------------------------------------
  // Properties of the scan
  // ---------------------------------------------------------------------

  /** Every name has at most 40 characters and none of `*`, `_`, `"`, backtick. */
  lemma {:induction false} ParsedNamesWellFormed(lines: seq<string>, noise: set<char>)
    ensures forall k :: 0 <= k < |ParseLines(lines, noise)| ==> WellFormedName(ParseLines(lines, noise)[k].name)
    decreases |lines|
  {
    if lines != [] {
      ParsedNamesWellFormed(lines[..|lines| - 1], noise);
      StepKeepsNames(ParseLines(lines[..|lines| - 1], noise), lines[|lines| - 1], noise);
    }
  }

  /** One step adds only well-formed names. */
  lemma StepKeepsNames(parsed: seq<Reaction>, line: string, noise: set<char>)
    requires forall k :: 0 <= k < |parsed| ==> WellFormedName(parsed[k].name)
    ensures var r := Step(parsed, line, noise);
      forall k :: 0 <= k < |r| ==> WellFormedName(r[k].name)
  {
    var r := Step(parsed, line, noise);
    if |r| == |parsed| && |parsed| > 0 && r[..|r| - 1] == parsed[..|parsed| - 1] {
      forall k | 0 <= k < |r| - 1
        ensures WellFormedName(r[k].name)
      {
        assert r[k] == r[..|r| - 1][k];
      }
    }
  }

  /** A `name:` line appends its record. */
  lemma StepNamed(parsed: seq<Reaction>, line: string, noise: set<char>)
    requires LineKindOf(line, noise).Named?
    ensures Step(parsed, line, noise) == parsed + [Reaction(LineKindOf(line, noise).name, LineKindOf(line, noise).body)]
  {
  }

  /** One step adds a record for a `name:` line, and for an unmatched line
      when there are none yet; otherwise the count stays. */
  lemma StepLength(parsed: seq<Reaction>, line: string, noise: set<char>)
    ensures |Step(parsed, line, noise)| == |parsed| + (
      if LineKindOf(line, noise).Named? || (LineKindOf(line, noise).Unmatched? && |parsed| == 0) then 1 else 0)
  {
  }

  function LineKindOf(line: string, noise: set<char>): LineKind {
    Classify(Trim(line), noise)
  }

  /** Lines that can start or extend a record. */
  predicate IsContentLine(line: string, noise: set<char>) {
    LineKindOf(line, noise).Named? || LineKindOf(line, noise).Unmatched?
  }

  function CountNamed(lines: seq<string>, noise: set<char>): nat
    decreases |lines|
  {
    if lines == [] then 0
    else CountNamed(lines[..|lines| - 1], noise) + (if LineKindOf(lines[|lines| - 1], noise).Named? then 1 else 0)
  }

  /** The first line that can start or extend a record is one without a
      `name:` part. */
  predicate StartsUnmatched(lines: seq<string>, noise: set<char>)
    decreases |lines|
  {
    if lines == [] then false
    else if HasContent(lines[..|lines| - 1], noise) then StartsUnmatched(lines[..|lines| - 1], noise)
    else LineKindOf(lines[|lines| - 1], noise).Unmatched?
  }

  predicate HasContent(lines: seq<string>, noise: set<char>) {
    exists k :: 0 <= k < |lines| && IsContentLine(lines[k], noise)
  }

  /** Records are created only by `name:` lines and by the one fallback
      record: blank and noise lines never create one, and an unmatched line
      creates one only when nothing was read before it. */
  lemma {:induction false} RecordCount(lines: seq<string>, noise: set<char>)
    ensures |ParseLines(lines, noise)| == CountNamed(lines, noise) + (if StartsUnmatched(lines, noise) then 1 else 0)
    ensures |ParseLines(lines, noise)| == 0 <==> !HasContent(lines, noise)
    decreases |lines|
  {
    if lines != [] {
      var init := lines[..|lines| - 1];
      var last := lines[|lines| - 1];
      RecordCount(init, noise);
      StepLength(ParseLines(init, noise), last, noise);
      if HasContent(init, noise) {
        var k :| 0 <= k < |init| && IsContentLine(init[k], noise);
        assert lines[k] == init[k];
      }
      if IsContentLine(last, noise) {
        assert lines[|lines| - 1] == last;
      }
      if HasContent(lines, noise) && !IsContentLine(last, noise) {
        var k :| 0 <= k < |lines| && IsContentLine(lines[k], noise);
        assert k < |lines| - 1;
        assert init[k] == lines[k];
      }
    }
  }

  /** The lines that are not noise. */
  function DropNoise(lines: seq<string>, noise: set<char>): seq<string>
    decreases |lines|
  {
    if lines == [] then []
    else
      var init := DropNoise(lines[..|lines| - 1], noise);
      if LineKindOf(lines[|lines| - 1], noise).Noise? then init else init + [lines[|lines| - 1]]
  }

  /** Noise lines neither create nor extend a record: removing them all
      changes nothing. */
  lemma {:induction false} NoiseLinesIgnored(lines: seq<string>, noise: set<char>)
    ensures ParseLines(DropNoise(lines, noise), noise) == ParseLines(lines, noise)
    decreases |lines|
  {
    if lines != [] {
      var init := lines[..|lines| - 1];
      NoiseLinesIgnored(init, noise);
      var d := DropNoise(init, noise);
      if !LineKindOf(lines[|lines| - 1], noise).Noise? {
        assert (d + [lines[|lines| - 1]])[..|d|] == d;
      }
    }
  }

  /** A blank line never creates a record and never renames one: it adds a
      paragraph break to the open message unless the message already ends
      with one. */
  lemma BlankLineEffect(parsed: seq<Reaction>, line: string, noise: set<char>)
    requires Trim(line) == ""
    ensures |parsed| == 0 ==> Step(parsed, line, noise) == []
    ensures |parsed| > 0 && EndsWith(parsed[|parsed| - 1].content, ParagraphBreak) ==> Step(parsed, line, noise) == parsed
    ensures |parsed| > 0 && !EndsWith(parsed[|parsed| - 1].content, ParagraphBreak) ==>
      Step(parsed, line, noise) == parsed[..|parsed| - 1] + [Reaction(parsed[|parsed| - 1].name, parsed[|parsed| - 1].content + "\n\n")]
  {
  }

  /** A blank line right after another blank line changes nothing: the open
      message ends with at most one paragraph break in a row. */
  lemma {:induction false} BlankLinesCollapse(parsed: seq<Reaction>, l1: string, l2: string, noise: set<char>)
    requires Trim(l1) == "" && Trim(l2) == ""
    ensures Step(Step(parsed, l1, noise), l2, noise) == Step(parsed, l1, noise)
  {
    var p1 := Step(parsed, l1, noise);
    if |parsed| > 0 && !EndsWith(parsed[|parsed| - 1].content, ParagraphBreak) {
      var c := parsed[|parsed| - 1].content + ParagraphBreak;
      assert p1[|p1| - 1].content == c;
      assert c[|c| - 2..] == ParagraphBreak;
    }
  }

  /** A line that is neither blank, noise nor `name: body` continues the open
      message after one space, or starts a 'User' record when none is open. */
  lemma UnmatchedLineEffect(parsed: seq<Reaction>, line: string, noise: set<char>)
    requires LineKindOf(line, noise).Unmatched?
    ensures |parsed| > 0 ==> (Step(parsed, line, noise) ==
      parsed[..|parsed| - 1] + [Reaction(parsed[|parsed| - 1].name, parsed[|parsed| - 1].content + " " + Trim(line))])
    ensures |parsed| == 0 ==> Step(parsed, line, noise) == [Reaction("User", Trim(line))]
  {
    if |parsed| > 0 {
      var c := parsed[|parsed| - 1].content;
      assert c + (" " + Trim(line)) == c + " " + Trim(line);
    }
  }

  /** Names are not deduplicated: the same `name: body` line twice gives two
      records. */
  lemma RepeatedNamesKept(parsed: seq<Reaction>, line: string, noise: set<char>)
    requires LineKindOf(line, noise).Named?
    ensures var k := LineKindOf(line, noise);
      Step(Step(parsed, line, noise), line, noise) == parsed + [Reaction(k.name, k.body), Reaction(k.name, k.body)]
  {
  }

  /** `q` extends `p`: every record of `p` is still there with its name, and
      all but the last are unchanged. */
  predicate Extends(q: seq<Reaction>, p: seq<Reaction>) {
    && |p| <= |q|
    && (|p| > 0 ==> q[..|p| - 1] == p[..|p| - 1])
    && (forall k :: 0 <= k < |p| ==> q[k].name == p[k].name)
  }

  lemma ExtendsTransitive(r: seq<Reaction>, q: seq<Reaction>, p: seq<Reaction>)
    requires Extends(r, q) && Extends(q, p)
    ensures Extends(r, p)
  {
    if |p| > 0 {
      assert r[..|p| - 1] == r[..|q| - 1][..|p| - 1];
      assert q[..|p| - 1] == q[..|q| - 1][..|p| - 1];
    }
  }

  /** One line never removes a record nor renames one; only the last record's
      content may grow. */
  lemma StepKeeps(parsed: seq<Reaction>, line: string, noise: set<char>)
    ensures Extends(Step(parsed, line, noise), parsed)
  {
    var q := Step(parsed, line, noise);
    if |q| > |parsed| {
      assert q[..|parsed|] == parsed;
    }
  }

  /** Scanning one more line is one more step. */
  lemma ParseLinesSnoc(lines: seq<string>, line: string, noise: set<char>)
    ensures ParseLines(lines + [line], noise) == Step(ParseLines(lines, noise), line, noise)
  {
    FrontOfSnoc(lines, line);
  }

  /** Records are appended in scan order: reading more lines keeps every
      record already read, and keeps its name; only the last one's content
      may still grow. */
  lemma {:induction false} ScanOrderKept(lines: seq<string>, more: seq<string>, noise: set<char>)
    ensures Extends(ParseLines(lines + more, noise), ParseLines(lines, noise))
    decreases |more|
  {
    if more == [] {
      assert lines + more == lines;
    } else {
      var init, last := more[..|more| - 1], more[|more| - 1];
      ScanOrderKept(lines, init, noise);
      assert lines + more == (lines + init) + [last];
      ParseLinesSnoc(lines + init, last, noise);
      StepKeeps(ParseLines(lines + init, noise), last, noise);
      ExtendsTransitive(ParseLines(lines + more, noise), ParseLines(lines + init, noise), ParseLines(lines, noise));
    }
  }

  // ---------------------------------------------------------------------
  // The display pass (index.js 403-408) and its outcome (415-419)
  // ---------------------------------------------------------------------

  /** A record is shown only when its trimmed content has two characters. */
  predicate Displayable(r: Reaction) {
    |Trim(r.content)| >= 2
  }

  /** The displayable records in scan order, each with trimmed content. */
  function Qualifying(parsed: seq<Reaction>): (r: seq<Reaction>)
    ensures |r| <= |parsed|
    decreases |parsed|
  {
    if parsed == [] then []
    else Qualifying(parsed[..|parsed| - 1]) + Kept(parsed[|parsed| - 1])
  }

  /** A record as shown, trimmed, or nothing when it is too short. */
  function Kept(r: Reaction): seq<Reaction> {
    if Displayable(r) then [Reaction(r.name, Trim(r.content))] else []
  }

  lemma QualifyingSnoc(p: seq<Reaction>, r: Reaction)
    ensures Qualifying(p + [r]) == Qualifying(p) + Kept(r)
  {
    assert (p + [r])[..|p|] == p;
  }

  lemma {:induction false} QualifyingAppend(p: seq<Reaction>, q: seq<Reaction>)
    ensures Qualifying(p + q) == Qualifying(p) + Qualifying(q)
    decreases |q|
  {
    if q == [] {
      assert p + q == p;
    } else {
      var init, last := q[..|q| - 1], q[|q| - 1];
      QualifyingAppend(p, init);
      QualifyingSnoc(p + init, last);
      QualifyingSnoc(init, last);
      SnocSplit(q);
      AppendAssoc(p, init, [last]);
      AppendAssoc(Qualifying(p), Qualifying(init), Kept(last));
    }
  }

  /** Every displayable record, trimmed, appears among the qualifying ones, and
      every qualifying record comes from a displayable record. */
  lemma {:induction false} QualifyingMembers(parsed: seq<Reaction>)
    ensures forall r :: r in Qualifying(parsed) <==>
      exists k :: 0 <= k < |parsed| && Displayable(parsed[k]) && r == Reaction(parsed[k].name, Trim(parsed[k].content))
    decreases |parsed|
  {
    if parsed != [] {
      var init, last := parsed[..|parsed| - 1], parsed[|parsed| - 1];
      QualifyingMembers(init);
      assert Qualifying(parsed) == Qualifying(init) + Kept(last);
      forall r | r in Qualifying(parsed)
        ensures exists k :: 0 <= k < |parsed| && Displayable(parsed[k]) && r == Reaction(parsed[k].name, Trim(parsed[k].content))
      {
        if r in Qualifying(init) {
          var k :| 0 <= k < |init| && Displayable(init[k]) && r == Reaction(init[k].name, Trim(init[k].content));
          assert parsed[k] == init[k];
        } else {
          assert r in Kept(last);
        }
      }
      forall k | 0 <= k < |parsed| && Displayable(parsed[k])
        ensures Reaction(parsed[k].name, Trim(parsed[k].content)) in Qualifying(parsed)
      {
        if k < |parsed| - 1 {
          assert init[k] == parsed[k];
        } else {
          assert Reaction(last.name, Trim(last.content)) in Kept(last);
        }
      }
    }
  }

  /** The first `count` elements, or all of them when there are fewer. */
  function TakeAtMost(q: seq<Reaction>, count: int): (r: seq<Reaction>)
    ensures |r| == if count <= 0 then 0 else if count < |q| then count else |q|
    ensures r == q[..|r|]
  {
    if count <= 0 then [] else if count < |q| then q[..count] else q
  }

  /** What is shown: the first `count` qualifying records. */
  function Select(parsed: seq<Reaction>, count: int): seq<Reaction> {
    TakeAtMost(Qualifying(parsed), count)
  }

  /** Each qualifying record has trimmed content of at least two characters. */
  lemma {:induction false} QualifyingTrimmed(parsed: seq<Reaction>)
    ensures forall k :: 0 <= k < |Qualifying(parsed)| ==>
      IsTrimmed(Qualifying(parsed)[k].content) && |Qualifying(parsed)[k].content| >= 2
    decreases |parsed|
  {
    if parsed != [] {
      var last := parsed[|parsed| - 1];
      QualifyingTrimmed(parsed[..|parsed| - 1]);
      TrimIsTrimmed(last.content);
    }
  }

  /** At most `count` records are shown, they are the first qualifying ones in
      scan order, and each has trimmed content of at least two characters. */
  lemma SelectBounds(parsed: seq<Reaction>, count: int)
    ensures |Select(parsed, count)| <= if count < 0 then 0 else count
    ensures |Select(parsed, count)| == if count <= 0 then 0
      else if count < |Qualifying(parsed)| then count else |Qualifying(parsed)|
    ensures Select(parsed, count) == Qualifying(parsed)[..|Select(parsed, count)|]
    ensures forall k :: 0 <= k < |Select(parsed, count)| ==>
      IsTrimmed(Select(parsed, count)[k].content) && |Select(parsed, count)[k].content| >= 2
  {
    QualifyingTrimmed(parsed);
  }

  /** Short records are skipped and do not count toward the limit. */
  lemma ShortRecordsSkipped(p: seq<Reaction>, short: Reaction, q: seq<Reaction>, count: int)
    requires !Displayable(short)
    ensures Select(p + [short] + q, count) == Select(p + q, count)
  {
    assert Qualifying([short]) == [] by {
      assert [short][..0] == [];
    }
    QualifyingAppend(p, [short]);
    assert Qualifying(p + [short]) == Qualifying(p);
    QualifyingAppend(p + [short], q);
    QualifyingAppend(p, q);
  }

  /** The pass stops once `count` records are shown: what follows is never
      looked at. */
  lemma StopsAtCount(p: seq<Reaction>, q: seq<Reaction>, count: int)
    requires |Qualifying(p)| >= count
    ensures Select(p + q, count) == Select(p, count)
  {
    QualifyingAppend(p, q);
    var a, b := Qualifying(p), Qualifying(q);
    if count > 0 {
      assert (a + b)[..count] == a[..count];
    }
  }

  /** Below the limit, one more record adds its shown form. */
  lemma SelectStep(p: seq<Reaction>, r: Reaction, count: int)
    requires |Select(p, count)| < count
    ensures Select(p + [r], count) == Select(p, count) + Kept(r)
  {
    QualifyingSnoc(p, r);
    assert Select(p, count) == Qualifying(p);
  }

  /** The loop of index.js 403-408. */
  method SelectForDisplay(parsed: seq<Reaction>, userCount: int) returns (shown: seq<Reaction>)
    ensures shown == Select(parsed, userCount)
  {
    shown := [];
    var messageCount := 0;
    var i := 0;
    while i < |parsed|
      invariant 0 <= i <= |parsed|
      invariant messageCount == |shown|
      invariant shown == Select(parsed[..i], userCount)
    {
      if messageCount >= userCount {
        StopsAtCount(parsed[..i], parsed[i..], userCount);
        assert parsed[..i] + parsed[i..] == parsed;
        break;
      }
      var msg := parsed[i];
      assert parsed[..i + 1] == parsed[..i] + [parsed[i]];
      SelectStep(parsed[..i], msg, userCount);
      if |Trim(msg.content)| < 2 {
        i := i + 1;
        continue;
      }
      shown := shown + [Reaction(msg.name, Trim(msg.content))];
      messageCount := messageCount + 1;
      i := i + 1;
    }
    if i == |parsed| {
      assert parsed[..|parsed|] == parsed;
    }
  }

  /** What the panel shows once the completion is parsed. */
  datatype Display = Shown(reactions: seq<Reaction>) | NoValidLines

  function DisplayFor(result: string, noise: set<char>, userCount: int): (d: Display)
    ensures d.Shown? ==> 1 <= |d.reactions| <= userCount
    ensures d.NoValidLines? <==> Select(ParseLines(CompletionLines(result), noise), userCount) == []
  {
    var shown := Select(ParseLines(CompletionLines(result), noise), userCount);
    if |shown| == 0 then NoValidLines else Shown(shown)
  }

  /** Parse a completion and decide what the panel shows (index.js 368-419). */
  method RenderCompletion(result: string, noise: set<char>, userCount: int) returns (d: Display)
    ensures d == DisplayFor(result, noise, userCount)
  {
    var parsed := ParseCompletion(result, noise);
    var shown := SelectForDisplay(parsed, userCount);
    if |shown| == 0 {
      d := NoValidLines;
    } else {
      d := Shown(shown);
    }
  }

  // ---------------------------------------------------------------------
  // The noise class as written and as intended
  // ---------------------------------------------------------------------

  lemma EllipsisHasNoMatch()
    ensures Trim(Ellipsis) == Ellipsis && MatchLine(Ellipsis).None?
  {
    TrimOfTrimmed(Ellipsis);
    FirstColonSplit(Ellipsis);
  }

  /** As written, a line holding only '…' is not noise: it is glued onto the
      open message after a space (or becomes a 'User' record). */
  lemma EllipsisLineAsWritten(parsed: seq<Reaction>)
    requires |parsed| > 0
    ensures Step(parsed, Ellipsis, NoiseAsWritten) == AppendToLast(parsed, " " + Ellipsis)
  {
    EllipsisHasNoMatch();
    assert !IsNoiseLine(Ellipsis, NoiseAsWritten) by { assert Ellipsis[0] !in NoiseAsWritten; }
  }

  /** With the intended class such a line is skipped like "..." or "---". */
  lemma EllipsisLineIntended(parsed: seq<Reaction>)
    ensures Step(parsed, Ellipsis, NoiseIntended) == parsed
  {
    TrimOfTrimmed(Ellipsis);
    assert IsNoiseLine(Ellipsis, NoiseIntended);
  }

  /** Every separator line of full stops, ellipses, hyphens and underscores is
      skipped with the intended class, whatever the open message. */
  lemma SeparatorLinesSkipped(parsed: seq<Reaction>, line: string)
    requires IsNoiseLine(Trim(line), NoiseIntended)
    ensures Step(parsed, line, NoiseIntended) == parsed
  {
  }
}
