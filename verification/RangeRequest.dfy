// services/metadata/internal/content/server.go, parseRange: from the text of a
// Range header to the byte interval that will be served.
module RangeRequest {
  import opened Common
  import opened Decimal

  // The inclusive interval to serve, and whether the answer is a 206.
  datatype Range = Range(start: int, end: int, partial: bool)

  // unicode.IsSpace
  predicate IsSpace(c: char) {
    || '\t' <= c <= '\r' || c == ' ' || c == '\U{85}' || c == '\U{A0}' || c == '\U{1680}'
    || '\U{2000}' <= c <= '\U{200A}' || c == '\U{2028}' || c == '\U{2029}' || c == '\U{202F}'
    || c == '\U{205F}' || c == '\U{3000}'
  }

  lemma WhiteSpaceIs(c: char)
    ensures IsSpace(c) <==>
      c in "\t\n\U{B}\U{C}\r \U{85}\U{A0}\U{1680}\U{2000}\U{2001}\U{2002}\U{2003}\U{2004}\U{2005}\U{2006}\U{2007}\U{2008}\U{2009}\U{200A}\U{2028}\U{2029}\U{202F}\U{205F}\U{3000}"
  {
  }

  // strings.TrimSpace
  function TrimSpace(s: string): string {
    if s != [] && IsSpace(s[0]) then TrimSpace(s[1..])
    else if s != [] && IsSpace(s[|s| - 1]) then TrimSpace(s[..|s| - 1])
    else s
  }

  // strings.Index for a single character.
  function IndexOf(s: string, c: char): (r: Option<nat>)
    ensures r.None? <==> c !in s
    ensures r.Some? ==> r.value < |s| && s[r.value] == c && c !in s[..r.value]
  {
    if s == [] then None
    else if s[0] == c then Some(0)
    else
      match IndexOf(s[1..], c)
      case None => None
      case Some(i) => assert s[..i + 1] == [s[0]] + s[1..][..i]; Some(i + 1)
  }

  const UNIT := "bytes="

  function ParseRange(header: string, total: int): Option<Range> {
    if header == "" then
      Some(Range(0, total - 1, false))
    else
      var h := TrimSpace(header);
      if !(UNIT <= h) || ',' in h then
        None
      else
        ParseSpec(h[|UNIT|..], total)
  }

  // The part of the header after "bytes=".
  function ParseSpec(spec: string, total: int): Option<Range> {
    match IndexOf(spec, '-')
    case None => None
    case Some(dash) => ParseEnds(TrimSpace(spec[..dash]), TrimSpace(spec[dash + 1..]), total)
  }

  // The texts before and after the dash.
  function ParseEnds(first: string, last: string, total: int): Option<Range> {
    if first == "" then
      match ParseInt(last)
      case None => None
      case Some(n) =>
        if n <= 0 then None else Some(Range(total - Min(n, total), total - 1, true))
    else
      match ParseInt(first)
      case None => None
      case Some(start) =>
        var end := if last == "" then Some(total - 1) else ParseInt(last);
        if start < 0 || end.None? || start > end.value || end.value >= total then None
        else Some(Range(start, end.value, true))
  }

  // Whatever the header says, an accepted range lies inside the file. It is
  // empty only for an empty file, where the answer is the interval [0, -1].
  lemma AcceptedRangeIsInside(header: string, total: nat)
    requires ParseRange(header, total).Some?
    ensures var r := ParseRange(header, total).value;
      0 <= r.start <= r.end + 1 && r.end < total && (r.start == r.end + 1 ==> total == 0 && r.start == 0)
  {
    if header != "" {
      var spec := TrimSpace(header)[|UNIT|..];
      var dash := IndexOf(spec, '-').value;
      if TrimSpace(spec[..dash]) == "" {
        assert Min(ParseInt(TrimSpace(spec[dash + 1..])).value, total) >= 0;
      }
    }
  }

  lemma TrimNothing(s: string)
    requires s != [] ==> !IsSpace(s[0]) && !IsSpace(s[|s| - 1])
    ensures TrimSpace(s) == s
  {
  }

  lemma DashSplits(a: string, b: string)
    requires '-' !in a
    ensures var s := a + "-" + b;
      IndexOf(s, '-') == Some(|a|) && s[..|a|] == a && s[|a| + 1..] == b
  {
    var s := a + "-" + b;
    assert s[|a|] == '-';
    var i := IndexOf(s, '-').value;
    assert forall k :: 0 <= k < |a| ==> s[k] == a[k] && s[k] != '-';
    assert forall k :: 0 <= k < i ==> s[k] == s[..i][k] && s[k] != '-';
  }

  // Text that no step of the parser alters: no blanks at its ends, no dash, no comma.
  predicate Plain(s: string) {
    s != "" ==> !IsSpace(s[0]) && !IsSpace(s[|s| - 1]) && '-' !in s && ',' !in s
  }

  lemma PrintedIsPlain(n: nat)
    ensures Plain(Print(n))
  {
    var s := Print(n);
    forall c | c in s ensures !IsSpace(c) && c != '-' && c != ',' {
      assert IsDigit(c);
    }
  }

  // The header text survives TrimSpace and the prefix check.
  lemma UnitIsRead(spec: string, total: int)
    requires spec != "" && !IsSpace(spec[|spec| - 1]) && ',' !in spec
    ensures ParseRange(UNIT + spec, total) == ParseSpec(spec, total)
  {
    hide ParseSpec, TrimSpace;
    var h := UNIT + spec;
    assert h[|UNIT|..] == spec;
    assert h[0] == 'b' && h[|h| - 1] == spec[|spec| - 1];
    TrimNothing(h);
    assert ',' !in UNIT;
  }

  lemma UnpaddedSpec(left: string, right: string, total: int)
    requires '-' !in left && ',' !in left && ',' !in right && (right != "" ==> !IsSpace(right[|right| - 1]))
    ensures ParseRange(UNIT + left + "-" + right, total) == ParseEnds(TrimSpace(left), TrimSpace(right), total)
  {
    hide ParseEnds, ParseRange, TrimSpace;
    var spec := left + "-" + right;
    assert UNIT + left + "-" + right == UNIT + spec;
    assert spec[|spec| - 1] == if right == "" then '-' else right[|right| - 1];
    UnitIsRead(spec, total);
    DashSplits(left, right);
  }

  // A header of the shape "bytes=first-last" is read as its two ends.
  lemma EndsAreRead(first: string, last: string, total: int)
    requires Plain(first) && Plain(last)
    ensures ParseRange(UNIT + first + "-" + last, total) == ParseEnds(first, last, total)
  {
    UnpaddedSpec(first, last, total);
    TrimNothing(first);
    TrimNothing(last);
  }

  lemma ClosedEnds(a: nat, b: nat, total: nat)
    requires a <= MAX_INT64 && b <= MAX_INT64
    ensures ParseEnds(Print(a), Print(b), total)
      == if a <= b < total then Some(Range(a, b, true)) else None
  {
    ParsePrinted(a);
    ParsePrinted(b);
  }

  // "bytes=a-b" is served as exactly [a, b], and refused exactly when it is
  // backwards or runs past the end of the file (it is never clamped).
  lemma ClosedFormIsExact(a: nat, b: nat, total: nat)
    requires a <= MAX_INT64 && b <= MAX_INT64
    ensures ParseRange(UNIT + Print(a) + "-" + Print(b), total)
      == if a <= b < total then Some(Range(a, b, true)) else None
  {
    PrintedIsPlain(a);
    PrintedIsPlain(b);
    EndsAreRead(Print(a), Print(b), total);
    ClosedEnds(a, b, total);
  }

  lemma OpenEnds(a: nat, total: nat)
    requires a <= MAX_INT64
    ensures ParseEnds(Print(a), "", total)
      == if a < total then Some(Range(a, total - 1, true)) else None
  {
    ParsePrinted(a);
  }

  // "bytes=a-" runs to the last byte, and is refused exactly when a is past it.
  lemma OpenFormIsExact(a: nat, total: nat)
    requires a <= MAX_INT64
    ensures ParseRange(UNIT + Print(a) + "-" + "", total)
      == if a < total then Some(Range(a, total - 1, true)) else None
  {
    PrintedIsPlain(a);
    EndsAreRead(Print(a), "", total);
    OpenEnds(a, total);
  }

  // "bytes=-n" is the last n bytes, all of them when there are fewer; only
  // n = 0 is refused.
  lemma SuffixFormIsExact(n: nat, total: nat)
    requires n <= MAX_INT64
    ensures ParseRange(UNIT + "" + "-" + Print(n), total)
      == if n > 0 then Some(Range(total - Min(n, total), total - 1, true)) else None
  {
    PrintedIsPlain(n);
    EndsAreRead("", Print(n), total);
    ParsePrinted(n);
  }

  // ---------------------------------------------------------------- other texts

  predicate Blank(s: string) {
    forall i :: 0 <= i < |s| ==> IsSpace(s[i])
  }

  lemma {:induction false} TrimDropsTheEnd(s: string, pad: string)
    requires Blank(pad)
    ensures TrimSpace(s + pad) == TrimSpace(s)
    decreases |s| + |pad|
  {
    if pad == [] {
      assert s + pad == s;
    } else if s == [] {
      assert s + pad == pad && pad[1..] == s + pad[1..];
      TrimDropsTheEnd(s, pad[1..]);
    } else if IsSpace(s[0]) {
      assert (s + pad)[1..] == s[1..] + pad;
      TrimDropsTheEnd(s[1..], pad);
    } else {
      assert (s + pad)[..|s + pad| - 1] == s + pad[..|pad| - 1];
      TrimDropsTheEnd(s, pad[..|pad| - 1]);
    }
  }

  lemma {:induction false} TrimDropsTheStart(pad: string, s: string)
    requires Blank(pad)
    ensures TrimSpace(pad + s) == TrimSpace(s)
  {
    if pad == [] {
      assert pad + s == s;
    } else {
      assert (pad + s)[1..] == pad[1..] + s;
      TrimDropsTheStart(pad[1..], s);
    }
  }

  // Blanks around a header do not matter.
  lemma PaddingIsIgnored(before: string, header: string, after: string, total: int)
    requires Blank(before) && Blank(after) && header != ""
    ensures ParseRange(before + header + after, total) == ParseRange(header, total)
  {
    TrimDropsTheEnd(before + header, after);
    TrimDropsTheStart(before, header);
  }

  // Nor do blanks around the two numbers.
  lemma PaddedEndsAreRead(first: string, last: string, pads: seq<string>, total: int)
    requires Plain(first) && Plain(last) && |pads| == 4 && forall i :: 0 <= i < 4 ==> Blank(pads[i])
    ensures ParseRange(UNIT + pads[0] + first + pads[1] + "-" + pads[2] + last + pads[3], total) == ParseEnds(first, last, total)
  {
    hide TrimSpace, ParseRange, ParseEnds;
    var left, right := pads[0] + first + pads[1], pads[2] + last + pads[3];
    assert UNIT + pads[0] + first + pads[1] + "-" + pads[2] + last + pads[3] == UNIT + left + "-" + right;
    NoMarkIn(pads[0]);
    NoMarkIn(pads[1]);
    NoMarkIn(pads[2]);
    NoMarkIn(pads[3]);
    PaddedSpec(left, right, total);
    PaddedTrims(pads[0], first, pads[1]);
    PaddedTrims(pads[2], last, pads[3]);
  }

  lemma PaddedTrims(before: string, s: string, after: string)
    requires Blank(before) && Blank(after) && Plain(s)
    ensures TrimSpace(before + s + after) == s
  {
    TrimDropsTheEnd(before + s, after);
    TrimDropsTheStart(before, s);
    TrimNothing(s);
  }

  lemma NoMarkIn(pad: string)
    requires Blank(pad)
    ensures '-' !in pad && ',' !in pad
  {
  }

  // A text ends in a part that trimming leaves, and blanks.
  lemma {:induction false} SplitBlanks(s: string) returns (kept: string, pad: string)
    ensures s == kept + pad && Blank(pad) && (kept != "" ==> !IsSpace(kept[|kept| - 1]))
  {
    kept, pad := s, "";
    if s != "" && IsSpace(s[|s| - 1]) {
      kept, pad := SplitBlanks(s[..|s| - 1]);
      pad := pad + [s[|s| - 1]];
    }
  }

  lemma PaddedSpec(left: string, right: string, total: int)
    requires '-' !in left && ',' !in left && ',' !in right
    ensures ParseRange(UNIT + left + "-" + right, total) == ParseEnds(TrimSpace(left), TrimSpace(right), total)
  {
    hide ParseRange, ParseEnds, TrimSpace;
    var kept, pad := SplitBlanks(right);
    assert UNIT + left + "-" + right == UNIT + left + "-" + kept + pad;
    PaddingIsIgnored("", UNIT + left + "-" + kept, pad, total);
    assert "" + (UNIT + left + "-" + kept) + pad == UNIT + left + "-" + kept + pad;
    UnpaddedSpec(left, kept, total);
    TrimDropsTheEnd(kept, pad);
  }

  lemma {:induction false} TrimKeepsCharacters(s: string, c: char)
    ensures c in TrimSpace(s) ==> c in s
    ensures c in s && !IsSpace(c) ==> c in TrimSpace(s)
    decreases |s|
  {
    if s != [] && IsSpace(s[0]) {
      TrimKeepsCharacters(s[1..], c);
      assert s == [s[0]] + s[1..];
    } else if s != [] && IsSpace(s[|s| - 1]) {
      TrimKeepsCharacters(s[..|s| - 1], c);
      assert s == s[..|s| - 1] + [s[|s| - 1]];
    }
  }

  // Refused: several ranges, another unit, and no dash at all.
  lemma OtherFormsAreRefused(header: string, total: int)
    requires header != "" && (',' in header || '-' !in header || !(UNIT <= TrimSpace(header)))
    ensures ParseRange(header, total).None?
  {
    TrimKeepsCharacters(header, ',');
    TrimKeepsCharacters(header, '-');
    var h := TrimSpace(header);
    if UNIT <= h && '-' in h[|UNIT|..] {
      assert '-' in h;
    }
  }

  // And ends that are no 64-bit numerals, whichever they are.
  lemma OtherEndsAreRefused(first: string, last: string, total: int)
    requires Plain(first) && Plain(last)
    requires (first != "" && ParseInt(first).None?) || (last != "" && ParseInt(last).None?) || (first == "" && last == "")
    ensures ParseRange(UNIT + first + "-" + last, total).None?
  {
    EndsAreRead(first, last, total);
  }
}
