/**
 * The global regular-expression replacements the repository applies to HTML
 * text. A global `replace` scans left to right: where the pattern matches, the
 * match is replaced and scanning resumes after it; elsewhere one character is
 * kept. `MatchEnd` gives, for each pattern, the length of the match at the
 * start of a string, as the regular-expression engine determines it.
 */
module HtmlText {
  import opened Optional
  import opened JsText

  /** The patterns in use. Open/close texts are written in lower case. */
  datatype Pattern =
    /** `<open[^>]*>.*?close` with the `s` flag. */
    | TaggedBlock(open: string, close: string)
    /** `<open[\s\S]*?close` with the `i` flag. */
    | RawBlockIgnoreCase(open: string, close: string)
    /** `<[^>]+>`. */
    | Tag
    /** A literal text, optionally with the `i` flag. */
    | Literal(text: string, ignoreCase: bool)

  /** `t` occurs in `s` at `i`, comparing ASCII letters without case when `ignoreCase`. */
  predicate MatchesAt(s: string, t: string, i: nat, ignoreCase: bool) {
    i + |t| <= |s| && (if ignoreCase then ToLower(s[i..i + |t|]) == t else s[i..i + |t|] == t)
  }

  /** The first index from `k` on where `t` occurs: what a lazy `.*?t` stops at. */
  function FindFrom(s: string, t: string, k: nat, ignoreCase: bool): (r: Option<nat>)
    requires k <= |s|
    ensures r.Some? ==> k <= r.value && MatchesAt(s, t, r.value, ignoreCase)
    decreases |s| - k
  {
    if MatchesAt(s, t, k, ignoreCase) then Some(k)
    else if k >= |s| then None
    else FindFrom(s, t, k + 1, ignoreCase)
  }

  /** The first character every match of the pattern starts with. */
  function FirstChar(p: Pattern): char {
    match p
    case TaggedBlock(open, _) => if |open| > 0 then open[0] else '<'
    case RawBlockIgnoreCase(open, _) => if |open| > 0 then open[0] else '<'
    case Tag => '<'
    case Literal(text, _) => if |text| > 0 then text[0] else '<'
  }

  /** A pattern whose texts are non-empty and start with a character that has no case. */
  predicate WellFormed(p: Pattern) {
    match p
    case TaggedBlock(open, close) => |open| > 0 && |close| > 0 && !('a' <= open[0] <= 'z') && !('A' <= open[0] <= 'Z')
    case RawBlockIgnoreCase(open, close) => |open| > 0 && |close| > 0 && !('a' <= open[0] <= 'z') && !('A' <= open[0] <= 'Z')
    case Tag => true
    case Literal(text, _) => |text| > 0 && !('a' <= text[0] <= 'z') && !('A' <= text[0] <= 'Z')
  }

  /** The length of the pattern's match at the start of `s`, if it matches there. */
  function MatchEnd(s: string, p: Pattern): (r: Option<nat>)
    requires WellFormed(p)
    ensures r.Some? ==> 0 < r.value <= |s| && s[0] == FirstChar(p)
  {
    match p
    case TaggedBlock(open, close) =>
      if !MatchesAt(s, open, 0, false) then None
      else (match FindFrom(s, ">", |open|, false)
        case None => None
        case Some(j) =>
          (match FindFrom(s, close, j + 1, false)
           case None => None
           case Some(k) => Some(k + |close|)))
    case RawBlockIgnoreCase(open, close) =>
      if !MatchesAt(s, open, 0, true) then None
      else (match FindFrom(s, close, |open|, true)
        case None => None
        case Some(k) => Some(k + |close|))
    case Tag =>
      if |s| >= 2 && s[0] == '<' && s[1] != '>' then
        (match FindFrom(s, ">", 1, false)
         case None => None
         case Some(j) => Some(j + 1))
      else None
    case Literal(text, ignoreCase) =>
      if MatchesAt(s, text, 0, ignoreCase) then Some(|text|) else None
  }

  /** `s.replace(/p/g, rep)`. */
  function ReplaceMatches(s: string, p: Pattern, rep: string): string
    requires WellFormed(p)
    decreases |s|
  {
    if |s| == 0 then ""
    else match MatchEnd(s, p)
      case Some(e) => rep + ReplaceMatches(s[e..], p, rep)
      case None => [s[0]] + ReplaceMatches(s[1..], p, rep)
  }

  /** Text without the pattern's first character comes back unchanged. */
  lemma {:induction false} ReplaceMatchesUntouched(s: string, p: Pattern, rep: string)
    requires WellFormed(p)
    requires forall i :: 0 <= i < |s| ==> s[i] != FirstChar(p)
    ensures ReplaceMatches(s, p, rep) == s
    decreases |s|
  {
    if |s| > 0 {
      ReplaceMatchesUntouched(s[1..], p, rep);
    }
  }

  /** A literal that occurs nowhere leaves the text unchanged. */
  lemma {:induction false} LiteralAbsent(s: string, text: string, rep: string)
    requires WellFormed(Literal(text, false))
    requires forall i :: 0 <= i < |s| ==> !MatchesAt(s, text, i, false)
    ensures ReplaceMatches(s, Literal(text, false), rep) == s
    decreases |s|
  {
    if |s| > 0 {
      forall i | 0 <= i < |s[1..]|
        ensures !MatchesAt(s[1..], text, i, false)
      {
        if i + |text| <= |s[1..]| {
          assert s[1..][i..i + |text|] == s[i + 1..i + 1 + |text|];
          assert !MatchesAt(s, text, i + 1, false);
        }
      }
      LiteralAbsent(s[1..], text, rep);
    }
  }

  // ---------------------------------------------------------------------
  // `replace(/\s+/g, " ")`
  // ---------------------------------------------------------------------

  /** No two adjacent white-space characters. */
  predicate NoSpaceRun(s: string) {
    forall i :: 0 <= i < |s| - 1 ==> !(IsSpace(s[i]) && IsSpace(s[i + 1]))
  }

  /** The only white space is the plain space. */
  predicate OnlyPlainSpaces(s: string) {
    forall i :: 0 <= i < |s| ==> IsSpace(s[i]) ==> s[i] == ' '
  }

  /** Trimmed, with single plain spaces between words. */
  predicate Tidy(s: string) {
    IsTrimmed(s) && NoSpaceRun(s) && OnlyPlainSpaces(s)
  }

  /** Every run of white space becomes one space. */
  function CollapseSpaces(s: string): (r: string)
    ensures NoSpaceRun(r) && OnlyPlainSpaces(r)
    ensures |s| > 0 ==> |r| > 0 && (IsSpace(r[0]) <==> IsSpace(s[0]))
    ensures |r| <= |s|
    decreases |s|
  {
    if |s| == 0 then ""
    else if IsSpace(s[0]) then " " + CollapseSpaces(TrimStart(s))
    else [s[0]] + CollapseSpaces(s[1..])
  }

  /** A text with no white space is left alone. */
  lemma {:induction false} CollapseWithoutSpaces(s: string)
    requires forall i :: 0 <= i < |s| ==> !IsSpace(s[i])
    ensures CollapseSpaces(s) == s
    decreases |s|
  {
    if |s| > 0 {
      CollapseWithoutSpaces(s[1..]);
    }
  }

  /** A contiguous piece of a text keeps single plain spaces. */
  lemma SliceKeepsSpacing(s: string, a: nat, b: nat)
    requires a <= b <= |s|
    requires NoSpaceRun(s) && OnlyPlainSpaces(s)
    ensures NoSpaceRun(s[a..b]) && OnlyPlainSpaces(s[a..b])
  {
    var t := s[a..b];
    forall i | 0 <= i < |t| - 1
      ensures !(IsSpace(t[i]) && IsSpace(t[i + 1]))
    {
      assert t[i] == s[a + i] && t[i + 1] == s[a + i + 1];
    }
    forall i | 0 <= i < |t|
      ensures IsSpace(t[i]) ==> t[i] == ' '
    {
      assert t[i] == s[a + i];
    }
  }

  /** `replace(/\s+/g, " ").trim()` yields a tidy text. */
  lemma CollapseThenTrimIsTidy(s: string)
    ensures Tidy(Trim(CollapseSpaces(s)))
  {
    var c := CollapseSpaces(s);
    var t1 := TrimStart(c);
    assert t1 == c[|c| - |t1|..];
    SliceKeepsSpacing(c, |c| - |t1|, |c|);
    var t2 := TrimEnd(t1);
    assert t2 == t1[..|t2|];
    SliceKeepsSpacing(t1, 0, |t2|);
  }

  /** Collapsing and trimming a text that has no white space changes nothing. */
  lemma CollapseThenTrimWithoutSpaces(s: string)
    requires forall i :: 0 <= i < |s| ==> !IsSpace(s[i])
    ensures Trim(CollapseSpaces(s)) == s
  {
    CollapseWithoutSpaces(s);
  }
}
