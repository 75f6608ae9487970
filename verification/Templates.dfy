/** Splitting an expression template into literal text and `{{ }}` blocks (src/n8n/expr.rs). */
module Templates {

  import opened Workflows
  import opened Sequences

  datatype Segment = Text(text: string) | Code(code: string)

  datatype Split = Ok(segments: seq<Segment>) | Err(message: string)

  const OPEN := "{{"
  const CLOSE := "}}"

  const UNTERMINATED := "unterminated {{ in expression: "

  // ---- What the segments of a template are ----------------------------------------------------------------------

  function Print(s: Segment): string {
    match s
    case Text(text) => text
    case Code(code) => OPEN + code + CLOSE
  }

  function Join(segments: seq<Segment>): string {
    if segments == [] then "" else Print(segments[0]) + Join(segments[1..])
  }

  /** Where a reader of a block is: among braces, inside a string literal, or behind a backslash in one. */
  datatype Mode = Plain(depth: nat) | Quoted(quote: char, depth: nat) | Escaped(quote: char, depth: nat)

  predicate IsQuote(c: char) {
    c == '\'' || c == '"' || c == '`'
  }

  function Read(m: Mode, c: char): Mode {
    match m
    case Plain(d) =>
      if IsQuote(c) then Quoted(c, d)
      else if c == '{' then Plain(d + 1)
      else if c == '}' && d > 0 then Plain(d - 1)
      else m
    case Quoted(q, d) => if c == '\\' then Escaped(q, d) else if c == q then Plain(d) else m
    case Escaped(q, d) => Quoted(q, d)
  }

  function ModeAfter(s: string): Mode {
    if s == "" then Plain(0) else Read(ModeAfter(s[..|s| - 1]), s[|s| - 1])
  }

  /** The block that starts with `s` ends at `i`: two closing braces outside strings and inner braces. */
  predicate Closes(s: string, i: nat) {
    i + 1 < |s| && s[i] == '}' && s[i + 1] == '}' && ModeAfter(s[..i]) == Plain(0)
  }

  ghost predicate NoCloseBefore(s: string, n: nat) {
    forall i :: 0 <= i < n ==> !Closes(s, i)
  }

  /** Printed as a block, the code is closed by its own closing braces and not before. */
  ghost predicate IsBody(code: string) {
    Closes(code + CLOSE, |code|) && NoCloseBefore(code + CLOSE, |code|)
  }

  ghost predicate OpensNowhere(s: string) {
    forall i, j :: 0 <= i < j == i + 1 < |s| ==> !(s[i] == '{' && s[j] == '{')
  }

  predicate EndsOpen(s: string) {
    s != "" && s[|s| - 1] == '{'
  }

  /** A segment that may stand before `next`. */
  ghost predicate Fits(s: Segment, next: seq<Segment>) {
    match s
    case Text(text) => text != "" && OpensNowhere(text) && (next != [] ==> next[0].Code? && !EndsOpen(text))
    case Code(code) => IsBody(code)
  }

  ghost predicate Canonical(segments: seq<Segment>) {
    segments == [] || (Fits(segments[0], segments[1..]) && Canonical(segments[1..]))
  }

  ghost predicate Splits(segments: seq<Segment>, template: string) {
    Canonical(segments) && Join(segments) == template
  }

  ghost predicate Accepted(template: string) {
    exists segments :: Splits(segments, template)
  }

  predicate Bare(c: char) {
    c != '{' && c != '}' && c != '\'' && c != '"' && c != '`'
  }

  /** Neither the quote nor a backslash. */
  predicate NotIn(s: string, q: char) {
    forall i :: 0 <= i < |s| ==> s[i] != q && s[i] != '\\'
  }

  lemma {:induction false} PlainMode(s: string)
    requires forall i :: 0 <= i < |s| ==> Bare(s[i])
    ensures ModeAfter(s) == Plain(0)
  {
    if s != "" { PlainMode(s[..|s| - 1]); }
  }

  lemma {:induction false} QuotedMode(q: char, s: string)
    requires (q == '\'' || q == '"' || q == '`') && NotIn(s, q)
    ensures ModeAfter([q] + s) == Quoted(q, 0)
  {
    var all := [q] + s;
    if s == "" {
      assert all == [q] && all[..0] == "" && ModeAfter("") == Plain(0);
    } else {
      QuotedMode(q, s[..|s| - 1]);
      assert all[..|all| - 1] == [q] + s[..|s| - 1];
    }
  }

  lemma {:induction false} BodyIf(code: string)
    requires ModeAfter(code) == Plain(0)
    requires forall i :: 0 <= i < |code| && code[i] == '}' ==> ModeAfter(code[..i]) != Plain(0)
    ensures IsBody(code)
  {
    var s := code + CLOSE;
    assert s[..|code|] == code;
    forall i | 0 <= i < |code| ensures !Closes(s, i) { assert s[..i] == code[..i]; }
  }

  /** A text with neither braces nor quotes can be a block's code. */
  lemma PlainBody(s: string)
    requires forall i :: 0 <= i < |s| ==> Bare(s[i])
    ensures IsBody(s)
  {
    PlainMode(s);
    BodyIf(s);
  }

  /** And so can a string literal, in any of the three quotes, whatever braces stand in it. */
  lemma QuotesHideBraces(q: char, s: string)
    requires (q == '\'' || q == '"' || q == '`') && NotIn(s, q)
    ensures IsBody([q] + s + [q])
  {
    var code := [q] + s + [q];
    QuotedMode(q, s);
    assert code[..|code| - 1] == [q] + s;
    forall i | 0 <= i < |code| && code[i] == '}' ensures ModeAfter(code[..i]) != Plain(0) {
      QuotedMode(q, s[..i - 1]);
      assert code[..i] == [q] + s[..i - 1];
    }
    BodyIf(code);
  }

  // ---- The first segment is determined --------------------------------------------------------------------------

  /** Whether a block ends at `i` depends only on what comes up to there. */
  lemma ClosesInBoth(s: string, t: string, i: nat)
    requires i + 2 <= |s| && i + 2 <= |t| && s[..i + 2] == t[..i + 2]
    ensures Closes(s, i) <==> Closes(t, i)
  {
    assert s[i] == s[..i + 2][i] && t[i] == t[..i + 2][i];
    assert s[i + 1] == s[..i + 2][i + 1] && t[i + 1] == t[..i + 2][i + 1];
    assert s[..i] == s[..i + 2][..i] && t[..i] == t[..i + 2][..i];
  }

  lemma BodiesAgree(c: string, d: string, p: string, q: string)
    requires IsBody(c) && IsBody(d) && c + CLOSE + p == d + CLOSE + q
    ensures |c| >= |d|
  {
    if |c| < |d| {
      var s := c + CLOSE + p;
      assert s[..|c| + 2] == c + CLOSE;
      assert (d + CLOSE)[..|c| + 2] == s[..|c| + 2];
      ClosesInBoth(c + CLOSE, d + CLOSE, |c|);
    }
  }

  lemma {:induction false} JoinHead(segments: seq<Segment>)
    requires segments != []
    ensures Join(segments) == Print(segments[0]) + Join(segments[1..])
  {
  }

  predicate StartsOpen(s: string) {
    |s| >= 2 && s[0] == '{' && s[1] == '{'
  }

  lemma {:induction false} CodeStartsOpen(segments: seq<Segment>)
    requires segments != [] && segments[0].Code?
    ensures StartsOpen(Join(segments))
  {
    JoinHead(segments);
  }

  /** What may come after a text: nothing, or a block it does not run into. */
  ghost predicate TextEnds(text: string, rest: string) {
    rest == "" || (StartsOpen(rest) && !EndsOpen(text))
  }

  lemma {:induction false} AfterText(a: seq<Segment>)
    requires Canonical(a) && a != [] && a[0].Text?
    ensures TextEnds(a[0].text, Join(a[1..]))
  {
    if |a| > 1 {
      CodeStartsOpen(a[1..]);
    }
  }

  /** A text that goes on across the start of a block has that start in it or runs into it. */
  lemma Overhang(x: string, tail: string, text: string, rest: string)
    requires x + tail == text + rest && |x| > |text| && StartsOpen(rest)
    ensures !OpensNowhere(x) || (EndsOpen(x) && tail != "")
  {
    var s := x + tail;
    assert x[|text|] == s[|text|] == (text + rest)[|text|] == '{';
    assert s[|text| + 1] == (text + rest)[|text| + 1] == '{';
    if |x| > |text| + 1 {
      assert x[|text| + 1] == s[|text| + 1];
    }
  }

  lemma {:induction false} TextIsNotOpen(segments: seq<Segment>)
    requires Canonical(segments) && segments != [] && segments[0].Text?
    ensures !StartsOpen(Join(segments))
  {
    AfterText(segments);
  }

  lemma SameBlock(c: string, p: string, d: string, q: string)
    requires OPEN + c + CLOSE + p == OPEN + d + CLOSE + q && IsBody(c) && IsBody(d)
    ensures c == d && p == q
  {
    BlockParts(c, p);
    BlockParts(d, q);
    SplitAt(OPEN, c + CLOSE + p, OPEN, d + CLOSE + q);
    BodiesAgree(c, d, p, q);
    BodiesAgree(d, c, q, p);
    SplitAt(c, CLOSE + p, d, CLOSE + q);
    SplitAt(CLOSE, p, CLOSE, q);
  }

  lemma BlockParts(c: string, p: string)
    ensures OPEN + c + CLOSE + p == OPEN + (c + CLOSE + p)
    ensures c + CLOSE + p == c + (CLOSE + p)
  {
  }

  lemma SplitAt(a: string, p: string, b: string, q: string)
    requires a + p == b + q && |a| == |b|
    ensures a == b && p == q
  {
    assert a == (a + p)[..|a|] && b == (b + q)[..|b|];
    assert p == (a + p)[|a|..] && q == (b + q)[|b|..];
  }

  lemma HeadCode(segments: seq<Segment>, code: string, rest: string)
    requires Splits(segments, OPEN + code + CLOSE + rest) && IsBody(code)
    ensures segments != [] && segments[0] == Code(code) && Splits(segments[1..], rest)
  {
    var s := OPEN + code + CLOSE + rest;
    assert StartsOpen(s);
    var tail := Join(segments[1..]);
    if segments[0].Text? {
      TextIsNotOpen(segments);
    } else {
      SameBlock(segments[0].code, tail, code, rest);
    }
  }

  lemma HeadText(segments: seq<Segment>, text: string, rest: string)
    requires Splits(segments, text + rest) && text != "" && OpensNowhere(text) && TextEnds(text, rest)
    ensures segments != [] && segments[0] == Text(text) && Splits(segments[1..], rest)
  {
    var s := text + rest;
    assert s == "" + s;
    if segments[0].Code? {
      CodeStartsOpen(segments);
      Overhang(text, rest, "", s);
    } else {
      var x := segments[0].text;
      HeadTextLength(segments, text, rest);
      assert s == x + Join(segments[1..]);
      assert x == s[..|x|] == text;
      assert Join(segments[1..]) == s[|x|..] == rest;
    }
  }

  lemma HeadTextLength(segments: seq<Segment>, text: string, rest: string)
    requires Splits(segments, text + rest) && text != "" && OpensNowhere(text) && TextEnds(text, rest)
    requires segments != [] && segments[0].Text?
    ensures |segments[0].text| == |text|
  {
    var x, tail := segments[0].text, Join(segments[1..]);
    assert x + tail == text + rest;
    AfterText(segments);
    if |x| < |text| {
      Overhang(text, rest, x, tail);
    } else if |x| > |text| {
      Overhang(x, tail, text, rest);
    }
  }

  // ---- At most one way to split ---------------------------------------------------------------------------------

  lemma HeadAndTail(a: seq<Segment>, b: seq<Segment>)
    requires a != [] && b != [] && a[0] == b[0] && a[1..] == b[1..]
    ensures a == b
  {
    assert a == [a[0]] + a[1..] && b == [b[0]] + b[1..];
  }

  lemma {:induction false} SameHead(a: seq<Segment>, b: seq<Segment>)
    requires Canonical(a) && Canonical(b) && Join(a) == Join(b) && a != []
    ensures b != [] && a[0] == b[0] && Join(a[1..]) == Join(b[1..]) && Canonical(b[1..])
  {
    var rest := Join(a[1..]);
    if a[0].Code? {
      assert Join(a) == OPEN + a[0].code + CLOSE + rest;
      HeadCode(b, a[0].code, rest);
    } else {
      AfterText(a);
      HeadText(b, a[0].text, rest);
    }
  }

  /** No two canonical lists of segments join to the same template. */
  lemma {:induction false} OneSplit(a: seq<Segment>, b: seq<Segment>)
    requires Canonical(a) && Canonical(b) && Join(a) == Join(b)
    ensures a == b
  {
    if a != [] {
      SameHead(a, b);
      OneSplit(a[1..], b[1..]);
      HeadAndTail(a, b);
    }
  }

  // ---- Splitting ------------------------------------------------------------------------------------------------

  function ModeOf(quote: Option<char>, depth: nat): Mode {
    if quote.Some? then Quoted(quote.value, depth) else Plain(depth)
  }

  /** `code` is read, in mode `m`, and nothing in it ended the block. */
  ghost predicate ReadSoFar(b: string, code: string, m: Mode) {
    code <= b && ModeAfter(code) == m && NoCloseBefore(b, |code|)
  }

  lemma ReadOne(b: string, code: string, m: Mode)
    requires ReadSoFar(b, code, m) && |code| < |b| && !Closes(b, |code|)
    ensures ReadSoFar(b, code + [b[|code|]], Read(m, b[|code|]))
  {
    assert (code + [b[|code|]])[..|code|] == code;
  }

  lemma ClosesHere(b: string, code: string, m: Mode)
    requires ReadSoFar(b, code, m)
    ensures Closes(b, |code|) <==>
            |code| + 1 < |b| && b[|code|] == '}' && b[|code| + 1] == '}' && m == Plain(0)
  {
    assert b[..|code|] == code;
  }

  lemma BodyRead(b: string, code: string)
    requires ReadSoFar(b, code, Plain(0)) && Closes(b, |code|)
    ensures IsBody(code) && code + CLOSE <= b
  {
    var s := code + CLOSE;
    assert s <= b;
    assert s[..|code|] == code;
    forall i | 0 <= i < |code| ensures !Closes(s, i) {
      assert s[..i + 2] == b[..i + 2];
      ClosesInBoth(s, b, i);
    }
  }

  /** The block whose opening braces end at `start` has this code and ends at `next`. */
  ghost predicate BlockAt(chars: string, start: nat, next: nat, code: string) {
    start <= next <= |chars| && chars[start..next] == code + CLOSE && IsBody(code)
  }

  /** Reads one block whose opening braces end at `start`: its code and where the text goes on, or nothing when
      no closing braces end it. */
  method ReadBlock(chars: string, start: nat) returns (code: Option<string>, next: nat)
    requires start <= |chars|
    ensures code.Some? ==> BlockAt(chars, start, next, code.value)
    ensures code.None? ==> NoCloseBefore(chars[start..], |chars| - start)
  {
    ghost var b := chars[start..];
    var i := start;
    var text := "";
    var depth: nat := 0;
    var quote: Option<char> := None;
    while true
      invariant start <= i <= |chars| && |text| == i - start
      invariant i < |chars| ==> ReadSoFar(b, text, ModeOf(quote, depth))
      invariant i == |chars| ==> NoCloseBefore(b, |text|)
      decreases |chars| - i
    {
      if i >= |chars| {
        return None, i;
      }
      var c := chars[i];
      ghost var m := ModeOf(quote, depth);
      ClosesHere(b, text, m);
      if quote.Some? {
        ReadOne(b, text, m);
        text := text + [c];
        if c == '\\' {
          if i + 1 < |chars| {
            ClosesHere(b, text, Read(m, c));
            ReadOne(b, text, Read(m, c));
            text := text + [chars[i + 1]];
            i := i + 1;
          }
        } else if c == quote.value {
          quote := None;
        }
        i := i + 1;
        continue;
      }
      if IsQuote(c) {
        quote := Some(c);
      } else if c == '{' {
        depth := depth + 1;
      } else if c == '}' && depth > 0 {
        depth := depth - 1;
      } else if c == '}' && i + 1 < |chars| && chars[i + 1] == '}' {
        BodyRead(b, text);
        assert chars[start..i + 2] == b[..|text| + 2] == text + CLOSE;
        return Some(text), i + 2;
      }
      ReadOne(b, text, m);
      text := text + [c];
      i := i + 1;
    }
  }

  // ---- The whole template ---------------------------------------------------------------------------------------

  lemma {:induction false} JoinSnoc(segments: seq<Segment>, s: Segment)
    ensures Join(segments + [s]) == Join(segments) + Print(s)
  {
    if segments == [] {
      assert Join([s]) == Print(s) + Join([]);
    } else {
      assert (segments + [s])[1..] == segments[1..] + [s];
      JoinSnoc(segments[1..], s);
    }
  }

  ghost predicate MayFollow(segments: seq<Segment>, s: Segment) {
    segments == [] || match segments[|segments| - 1]
                      case Code(_) => true
                      case Text(text) => s.Code? && !EndsOpen(text)
  }

  lemma {:induction false} CanonicalSnoc(segments: seq<Segment>, s: Segment)
    requires Canonical(segments) && Fits(s, []) && MayFollow(segments, s)
    ensures Canonical(segments + [s])
  {
    if segments != [] {
      assert (segments + [s])[1..] == segments[1..] + [s];
      CanonicalSnoc(segments[1..], s);
    }
  }

  /** Whatever is accepted after a block or a text is accepted without it. */
  lemma AcceptedCode(code: string, rest: string)
    requires Accepted(OPEN + code + CLOSE + rest) && IsBody(code)
    ensures Accepted(rest)
  {
    var segments :| Splits(segments, OPEN + code + CLOSE + rest);
    HeadCode(segments, code, rest);
  }

  lemma AcceptedText(text: string, rest: string)
    requires Accepted(text + rest) && text != "" && OpensNowhere(text) && TextEnds(text, rest)
    ensures Accepted(rest)
  {
    var segments :| Splits(segments, text + rest);
    HeadText(segments, text, rest);
  }

  lemma BlockNeedsClose(segments: seq<Segment>, b: string)
    requires Splits(segments, OPEN + b)
    ensures !NoCloseBefore(b, |b|)
  {
    assert StartsOpen(OPEN + b);
    if segments[0].Text? {
      TextIsNotOpen(segments);
    } else {
      var d, tail := segments[0].code, Join(segments[1..]);
      BlockParts(d, tail);
      SplitAt(OPEN, b, OPEN, d + CLOSE + tail);
      assert (d + CLOSE)[..|d| + 2] == b[..|d| + 2];
      ClosesInBoth(d + CLOSE, b, |d|);
    }
  }

  lemma {:induction false} AppendFits(segments: seq<Segment>, s: Segment)
    requires Canonical(segments) && Fits(s, []) && MayFollow(segments, s)
    ensures Canonical(segments + [s]) && Join(segments + [s]) == Join(segments) + Print(s)
  {
    CanonicalSnoc(segments, s);
    JoinSnoc(segments, s);
  }

  /** The text under way holds no opening braces and does not run into the rest. */
  ghost predicate TextSoFar(text: string, rest: string) {
    OpensNowhere(text) && !(EndsOpen(text) && rest != "" && rest[0] == '{')
  }

  lemma TextGrows(text: string, rest: string)
    requires rest != "" && TextSoFar(text, rest) && !StartsOpen(rest)
    ensures TextSoFar(text + [rest[0]], rest[1..])
  {
  }

  lemma Shift(template: string, i: nat)
    requires i < |template|
    ensures template[i..] == [template[i]] + template[i + 1..]
    ensures template[i..][1..] == template[i + 1..]
    ensures StartsOpen(template[i..]) <==> i + 1 < |template| && template[i] == '{' && template[i + 1] == '{'
    ensures StartsOpen(template[i..]) ==> template[i..] == OPEN + template[i + 2..]
  {
  }

  lemma Block(template: string, i: nat, next: nat, code: string)
    requires i < |template| && StartsOpen(template[i..]) && BlockAt(template, i + 2, next, code)
    ensures template[i..] == OPEN + code + CLOSE + template[next..]
    ensures template[..next] == template[..i] + (OPEN + code + CLOSE)
  {
    Shift(template, i);
    assert template[i + 2..] == template[i + 2..next] + template[next..];
    assert template[..next] == template[..i] + OPEN + template[i + 2..next];
    BlockParts(code, template[next..]);
  }

  /** How far splitting has come: up to `i`, with the segments `out` done and `text` under way. */
  ghost predicate Progress(template: string, out: seq<Segment>, text: string, i: nat) {
    && i <= |template|
    && Canonical(out) && MayFollow(out, Text(text)) && TextSoFar(text, template[i..])
    && Join(out) + text == template[..i]
    && (Accepted(template) ==> Accepted(text + template[i..]))
  }

  lemma PushChar(template: string, out: seq<Segment>, text: string, i: nat)
    requires i < |template| && Progress(template, out, text, i) && !StartsOpen(template[i..])
    ensures Progress(template, out, text + [template[i]], i + 1)
  {
    Shift(template, i);
    TextGrows(text, template[i..]);
    Associates(text, [template[i]], template[i + 1..]);
    Associates(Join(out), text, [template[i]]);
    assert template[..i + 1] == template[..i] + [template[i]];
  }

  /** Up to `i`, where a block starts or the template ends, `out` is done and no text is under way. */
  ghost predicate Between(template: string, out: seq<Segment>, i: nat) {
    && i <= |template|
    && Canonical(out) && (i < |template| ==> MayFollow(out, Code("")))
    && Join(out) == template[..i]
    && (Accepted(template) ==> Accepted(template[i..]))
  }

  /** What is left of the text becomes a segment of its own. */
  function Flushed(out: seq<Segment>, text: string): seq<Segment> {
    if text != "" then out + [Text(text)] else out
  }

  lemma Flush(template: string, out: seq<Segment>, text: string, i: nat)
    requires Progress(template, out, text, i) && (i == |template| || StartsOpen(template[i..]))
    ensures Between(template, Flushed(out, text), i)
  {
    if text != "" {
      if Accepted(template) { AcceptedText(text, template[i..]); }
      AppendFits(out, Text(text));
    } else {
      assert text + template[i..] == template[i..];
      assert Join(out) + text == Join(out);
    }
  }

  lemma Begins(template: string)
    ensures Progress(template, [], "", 0)
  {
    assert "" + template[0..] == template;
  }

  lemma PushCode(template: string, out: seq<Segment>, i: nat, next: nat, code: string)
    requires i < |template| && StartsOpen(template[i..]) && BlockAt(template, i + 2, next, code)
    requires Between(template, out, i)
    ensures Progress(template, out + [Code(code)], "", next)
  {
    Block(template, i, next, code);
    if Accepted(template) { AcceptedCode(code, template[next..]); }
    AppendFits(out, Code(code));
    assert "" + template[next..] == template[next..];
    assert Join(out + [Code(code)]) + "" == Join(out + [Code(code)]);
  }

  /** The right answer for a template: a canonical list that joins to it, or the error when there is none. */
  ghost predicate Answers(r: Split, template: string) {
    match r
    case Ok(segments) => Splits(segments, template)
    case Err(message) => !Accepted(template) && message == UNTERMINATED + template
  }

  lemma NoBlockAhead(template: string, out: seq<Segment>, i: nat)
    requires i + 2 <= |template| && StartsOpen(template[i..]) && Between(template, out, i)
    requires NoCloseBefore(template[i + 2..], |template| - (i + 2))
    ensures Answers(Err(UNTERMINATED + template), template)
  {
    Shift(template, i);
    if Accepted(template) {
      var segments :| Splits(segments, OPEN + template[i + 2..]);
      BlockNeedsClose(segments, template[i + 2..]);
    }
  }

  lemma AtEnd(template: string, out: seq<Segment>, text: string)
    requires Progress(template, out, text, |template|)
    ensures Answers(Ok(Flushed(out, text)), template)
  {
    Flush(template, out, text, |template|);
    assert template[..|template|] == template;
  }

  lemma OpensAt(template: string, i: nat)
    requires i < |template|
    ensures StartsOpen(template[i..]) <==> template[i] == '{' && i + 1 < |template| && template[i + 1] == '{'
  {
    Shift(template, i);
  }

  /** What answers the template a canonical list joins to is that list: splitting undoes joining. */
  lemma {:induction false} SplitJoin(segments: seq<Segment>, r: Split)
    requires Canonical(segments) && Answers(r, Join(segments))
    ensures r == Ok(segments)
  {
    assert Splits(segments, Join(segments));
    OneSplit(segments, r.segments);
  }

  /** The text under way ends here and a block is read, if it ends. */
  method TakeBlock(template: string, done: seq<Segment>, text: string, i: nat)
    returns (ok: bool, out: seq<Segment>, next: nat)
    requires i + 2 <= |template| && StartsOpen(template[i..]) && Progress(template, done, text, i)
    ensures ok ==> i < next && Progress(template, out, "", next)
    ensures !ok ==> Answers(Err(UNTERMINATED + template), template)
  {
    Flush(template, done, text, i);
    out := Flushed(done, text);
    var code;
    code, next := ReadBlock(template, i + 2);
    if code.None? {
      NoBlockAhead(template, out, i);
      return false, out, next;
    }
    PushCode(template, out, i, next, code.value);
    return true, out + [Code(code.value)], next;
  }

  /** A template is accepted exactly when some canonical list of segments joins to it, and splitting returns
      such a list. */
  method SplitTemplate(template: string) returns (r: Split)
    ensures Answers(r, template)
  {
    var out: seq<Segment> := [];
    var text := "";
    var i := 0;
    Begins(template);
    while i < |template|
      invariant Progress(template, out, text, i)
      decreases |template| - i
    {
      OpensAt(template, i);
      if template[i] == '{' && i + 1 < |template| && template[i + 1] == '{' {
        var ok;
        ok, out, i := TakeBlock(template, out, text, i);
        if !ok {
          return Err(UNTERMINATED + template);
        }
        text := "";
      } else {
        PushChar(template, out, text, i);
        text := text + [template[i]];
        i := i + 1;
      }
    }
    AtEnd(template, out, text);
    return Ok(Flushed(out, text));
  }
}
