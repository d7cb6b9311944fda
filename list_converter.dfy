/**
 * `listConverter` of the WeChat renderer: the rendered items of a list
 * arrive joined by the `<%s/>` marker; paragraph-like tags are removed, the
 * items are split on the marker, and joined again with a bullet (unordered)
 * or with running numbers "1. ", "2. ", ... (ordered). The style text that
 * `makeStyleText` renders from the theme is a parameter.
 */
module ListConverter {
  import opened Optional
  import opened JsText

  const Marker := "<%s/>"
  /** The separator of unordered items, as the source file stores it: U+FFFD followed by '?'. */
  const Bullet := "\U{FFFD}?"

  /** What `makeStyleText` gives for `styles.list.ul` and `styles.list.ol`. */
  datatype ListStyles = ListStyles(ul: string, ol: string)

  /** The characters a regular-expression `.` does not match. */
  predicate IsLineTerminator(c: char) {
    c == '\n' || c == '\r' || c == '\U{2028}' || c == '\U{2029}'
  }

  /** The index after the run of '/' that starts at `j`. */
  function SkipSlashes(s: string, j: nat): (k: nat)
    requires j <= |s|
    ensures j <= k <= |s| && (k == |s| || s[k] != '/')
    ensures forall i :: j <= i < k ==> s[i] == '/'
    decreases |s| - j
  {
    if j < |s| && s[j] == '/' then SkipSlashes(s, j + 1) else j
  }

  /** The first '>' from `k` on, unless a line terminator or the end comes first. */
  function CloseFrom(s: string, k: nat): (r: Option<nat>)
    requires k <= |s|
    ensures r.Some? ==> k <= r.value < |s| && s[r.value] == '>'
    ensures r.Some? ==> forall i :: k <= i < r.value ==> s[i] != '>' && !IsLineTerminator(s[i])
    decreases |s| - k
  {
    if k == |s| || IsLineTerminator(s[k]) then None
    else if s[k] == '>' then Some(k)
    else CloseFrom(s, k + 1)
  }

  /**
   * Where a match of the tag pattern starting at index 0 ends (its last
   * index): '<', any number of '/', 'p', then the shortest run without a
   * line terminator up to a '>'.
   */
  function TagEnd(s: string): (r: Option<nat>)
    ensures r.Some? ==> 2 <= r.value < |s| && s[0] == '<' && s[r.value] == '>'
  {
    if |s| == 0 || s[0] != '<' then None
    else
      var j := SkipSlashes(s, 1);
      if j < |s| && s[j] == 'p' then CloseFrom(s, j + 1) else None
  }

  /** The global replacement of the tag pattern by "": matches removed left to right, each search resuming after the last match. */
  function StripTags(s: string): (r: string)
    ensures |r| <= |s|
    decreases |s|
  {
    if |s| == 0 then ""
    else match TagEnd(s)
      case Some(e) => StripTags(s[e + 1..])
      case None => [s[0]] + StripTags(s[1..])
  }

  /** The unordered body: the items joined by the bullet. */
  function UnorderedBody(segments: seq<string>): string {
    Join(segments, Bullet)
  }

  /** The number put before item `i` of an ordered list. */
  function Label(i: nat): (l: string)
    ensures |l| >= 3
  {
    NatToString(i) + ". "
  }

  /** The ordered body after the loop has appended items 1 to `k - 1`. */
  function OrderedUpTo(segments: seq<string>, k: nat): string
    requires 1 <= k <= |segments|
    decreases k
  {
    if k == 1 then segments[0] else OrderedUpTo(segments, k - 1) + Label(k - 1) + segments[k - 1]
  }

  function OrderedBody(segments: seq<string>): string
    requires |segments| >= 1
  {
    OrderedUpTo(segments, |segments|)
  }

  /** The segments of a body: tags removed, split on the marker. */
  function Segments(body: string): (segments: seq<string>)
    ensures |segments| >= 1
    ensures forall i :: 0 <= i < |segments| ==> !Contains(segments[i], Marker)
  {
    Split(StripTags(body), Marker)
  }

  /** What `listConverter` returns; `_start` plays no part. */
  function ListHtml(styles: ListStyles, body: string, ordered: bool): string {
    var segments := Segments(body);
    if !ordered then "<ul style=\"" + styles.ul + "\">" + UnorderedBody(segments) + "</ul>"
    else "<ol style=\"" + styles.ol + "\">" + OrderedBody(segments) + "</ol>"
  }

  /** `listConverter`, with the numbering loop of the ordered branch. */
  method RenderList(styles: ListStyles, body: string, ordered: bool, start: int) returns (html: string)
    ensures html == ListHtml(styles, body, ordered)
  {
    var stripped := StripTags(body);
    var segments := Split(stripped, Marker);
    if !ordered {
      return "<ul style=\"" + styles.ul + "\">" + Join(segments, Bullet) + "</ul>";
    }
    var text := segments[0];
    var i := 1;
    while i < |segments|
      invariant 1 <= i <= |segments|
      invariant text == OrderedUpTo(segments, i)
    {
      text := text + NatToString(i) + ". " + segments[i];
      i := i + 1;
    }
    html := "<ol style=\"" + styles.ol + "\">" + text + "</ol>";
  }

  /** The ordered body: the first segment, then each later segment `j` behind the label `j`. */
  function Concat(xs: seq<string>): string
    decreases |xs|
  {
    if |xs| == 0 then "" else Concat(xs[..|xs| - 1]) + xs[|xs| - 1]
  }

  /** Item `j` of an ordered list after the first: its number, then its text. */
  function NumberedItems(segments: seq<string>): (items: seq<string>)
    requires |segments| >= 1
    ensures |items| == |segments| - 1
    ensures forall j :: 0 <= j < |items| ==> items[j] == Label(j + 1) + segments[j + 1]
  {
    seq(|segments| - 1, j requires 0 <= j < |segments| - 1 => Label(j + 1) + segments[j + 1])
  }

  /**
   * Exactly `segments - 1` numbers are inserted, counting from 1 whatever
   * `_start` says: the ordered body is the first segment followed by the
   * numbered items.
   */
  lemma {:induction false} OrderedIsNumberedItems(segments: seq<string>, k: nat)
    requires 1 <= k <= |segments|
    ensures OrderedUpTo(segments, k) == segments[0] + Concat(NumberedItems(segments)[..k - 1])
    decreases k
  {
    var items := NumberedItems(segments);
    if k > 1 {
      OrderedIsNumberedItems(segments, k - 1);
      var head, last := Concat(items[..k - 2]), items[k - 2];
      assert Concat(items[..k - 1]) == head + last by {
        assert items[..k - 1][..k - 2] == items[..k - 2];
        assert items[..k - 1][k - 2] == last;
      }
      assert last == Label(k - 1) + segments[k - 1];
      assert OrderedUpTo(segments, k) == (segments[0] + head) + Label(k - 1) + segments[k - 1];
      Assoc4(segments[0], head, Label(k - 1), segments[k - 1]);
    }
  }

  /** The whole ordered body is the first segment followed by all numbered items. */
  lemma OrderedBodyIsNumberedItems(segments: seq<string>)
    requires |segments| >= 1
    ensures OrderedBody(segments) == segments[0] + Concat(NumberedItems(segments))
  {
    OrderedIsNumberedItems(segments, |segments|);
    assert NumberedItems(segments)[..|segments| - 1] == NumberedItems(segments);
  }

  predicate MarkerFree(c: char) {
    c != '<' && c != '%' && c != 's' && c != '/' && c != '>'
  }

  /** A marker cannot straddle a separator none of whose characters it uses. */
  lemma NoMarkerAcross(a: string, sep: string, b: string)
    requires !Contains(a, Marker) && !Contains(b, Marker)
    requires |sep| > 0 && forall k :: 0 <= k < |sep| ==> MarkerFree(sep[k])
    ensures !Contains(a + sep + b, Marker)
  {
    var s := a + sep + b;
    forall i | 0 <= i <= |s| - |Marker|
      ensures !OccursAt(s, Marker, i)
    {
      if i + 5 <= |a| {
        assert s[i..i + 5] == a[i..i + 5];
        assert !OccursAt(a, Marker, i);
      } else if i >= |a| + |sep| {
        var j := i - |a| - |sep|;
        assert s[i..i + 5] == b[j..j + 5];
        assert !OccursAt(b, Marker, j);
      } else {
        var p := if i >= |a| then i else |a|;
        assert s[p] == sep[p - |a|];
        assert s[i..i + 5][p - i] == s[p];
        assert !MarkerFree(Marker[p - i]);
      }
    }
  }

  lemma {:induction false} NoMarkerInJoin(parts: seq<string>, sep: string)
    requires forall i :: 0 <= i < |parts| ==> !Contains(parts[i], Marker)
    requires |sep| > 0 && forall k :: 0 <= k < |sep| ==> MarkerFree(sep[k])
    ensures !Contains(Join(parts, sep), Marker)
    decreases |parts|
  {
    if |parts| == 0 {
      assert Join(parts, sep) == "";
    } else if |parts| > 1 {
      NoMarkerInJoin(parts[1..], sep);
      NoMarkerAcross(parts[0], sep, Join(parts[1..], sep));
    }
  }

  lemma {:induction false} NoMarkerInOrdered(segments: seq<string>, k: nat)
    requires 1 <= k <= |segments|
    requires forall i :: 0 <= i < |segments| ==> !Contains(segments[i], Marker)
    ensures !Contains(OrderedUpTo(segments, k), Marker)
    decreases k
  {
    if k > 1 {
      NoMarkerInOrdered(segments, k - 1);
      var l := Label(k - 1);
      assert forall c :: 0 <= c < |l| ==> MarkerFree(l[c]) by {
        var digits := NatToString(k - 1);
        assert l == digits + ". ";
        forall c | 0 <= c < |l|
          ensures MarkerFree(l[c])
        {
          if c < |digits| {
            assert l[c] == digits[c];
          }
        }
      }
      NoMarkerAcross(OrderedUpTo(segments, k - 1), l, segments[k - 1]);
    }
  }

  /** No `<%s/>` marker is left in either kind of list body. */
  lemma MarkersAllReplaced(body: string)
    ensures !Contains(UnorderedBody(Segments(body)), Marker)
    ensures !Contains(OrderedBody(Segments(body)), Marker)
  {
    var segments := Segments(body);
    assert forall k :: 0 <= k < |Bullet| ==> MarkerFree(Bullet[k]);
    NoMarkerInJoin(segments, Bullet);
    NoMarkerInOrdered(segments, |segments|);
  }

  /** Text without '<' passes through the tag removal unchanged, in front of whatever follows. */
  lemma {:induction false} StripPlainPrefix(t: string, rest: string)
    requires NoOpenAngle(t)
    ensures StripTags(t + rest) == t + StripTags(rest)
    decreases |t|
  {
    if |t| > 0 {
      var s := t + rest;
      assert s[0] == t[0];
      assert TagEnd(s).None?;
      assert s[1..] == t[1..] + rest;
      StripPlainPrefix(t[1..], rest);
      assert StripTags(s) == [t[0]] + (t[1..] + StripTags(rest));
      assert [t[0]] + t[1..] == t;
    } else {
      assert t + rest == rest;
    }
  }

  /** Text without '<' is left as it is. */
  lemma NoTagsUnchanged(t: string)
    requires NoOpenAngle(t)
    ensures StripTags(t) == t
  {
    StripPlainPrefix(t, "");
    assert t + "" == t;
  }

  /** A whole match of the tag pattern: '<', slashes, 'p', then characters other than '>' and line terminators, then '>'. */
  predicate IsPTag(tag: string) {
    |tag| >= 3 && tag[0] == '<' && tag[|tag| - 1] == '>'
    && var j := SkipSlashes(tag, 1);
       j < |tag| - 1 && tag[j] == 'p'
       && forall i :: j < i < |tag| - 1 ==> tag[i] != '>' && !IsLineTerminator(tag[i])
  }

  lemma {:induction false} SkipSlashesPrefix(tag: string, rest: string, j: nat)
    requires j <= |tag| && SkipSlashes(tag, j) < |tag|
    ensures SkipSlashes(tag + rest, j) == SkipSlashes(tag, j)
    decreases |tag| - j
  {
    if tag[j] == '/' {
      SkipSlashesPrefix(tag, rest, j + 1);
    }
  }

  lemma {:induction false} CloseAt(s: string, k: nat, e: nat)
    requires k <= e < |s| && s[e] == '>'
    requires forall i :: k <= i < e ==> s[i] != '>' && !IsLineTerminator(s[i])
    ensures CloseFrom(s, k) == Some(e)
    decreases e - k
  {
    if k < e {
      CloseAt(s, k + 1, e);
    }
  }

  /** A tag is removed whole, whatever follows it. */
  lemma StripTagPrefix(tag: string, rest: string)
    requires IsPTag(tag)
    ensures StripTags(tag + rest) == StripTags(rest)
  {
    var s := tag + rest;
    var j := SkipSlashes(tag, 1);
    SkipSlashesPrefix(tag, rest, 1);
    assert s[j] == 'p';
    CloseAt(s, j + 1, |tag| - 1);
    assert TagEnd(s) == Some(|tag| - 1);
    assert s[|tag|..] == rest;
  }

  lemma ClosingPIsTag()
    ensures IsPTag("</p>")
  {
    assert SkipSlashes("</p>", 2) == 2;
  }

  /** A paragraph-wrapped item loses its `<p>` and `</p>`. */
  lemma ParagraphUnwrapped(attrs: string, t: string)
    requires forall i :: 0 <= i < |attrs| ==> attrs[i] != '>' && !IsLineTerminator(attrs[i])
    requires NoOpenAngle(t)
    ensures StripTags("<p" + attrs + ">" + t + "</p>") == t
  {
    var open := "<p" + attrs + ">";
    assert open[1] == 'p';
    assert forall i :: 1 < i < |open| - 1 ==> open[i] == attrs[i - 2];
    assert IsPTag(open);
    StripTagPrefix(open, t + "</p>");
    StripPlainPrefix(t, "</p>");
    ClosingPIsTag();
    StripTagPrefix("</p>", "");
    assert "</p>" + "" == "</p>";
    assert open + t + "</p>" == open + (t + "</p>");
  }

  /** The pattern is wider than `<p>`: any tag name starting with 'p', such as `<pre>`, goes too. */
  lemma PreTagsRemovedToo(t: string)
    requires NoOpenAngle(t)
    ensures StripTags("<pre>" + t + "</pre>") == t
  {
    PreTagsMatch();
    Assoc("<pre>", t, "</pre>");
    StripTagPrefix("<pre>", t + "</pre>");
    StripPlainPrefix(t, "</pre>");
    StripTagPrefix("</pre>", "");
    assert "</pre>" + "" == "</pre>";
  }

  lemma PreTagsMatch()
    ensures IsPTag("<pre>") && IsPTag("</pre>")
  {
    assert SkipSlashes("<pre>", 1) == 1;
    assert SkipSlashes("</pre>", 2) == 2;
  }

  lemma Assoc4(w: string, x: string, y: string, z: string)
    ensures (w + x) + y + z == w + (x + (y + z))
  {
  }

  lemma Assoc(x: string, y: string, z: string)
    ensures x + y + z == x + (y + z)
  {
  }


  predicate NoOpenAngle(t: string) {
    forall i :: 0 <= i < |t| ==> t[i] != '<'
  }

  /** The marker itself is not a tag: it survives the tag removal. */
  lemma MarkerKept(a: string, b: string)
    requires NoOpenAngle(a) && NoOpenAngle(b)
    ensures StripTags(a + Marker + b) == a + Marker + b
  {
    var m := Marker + b;
    var tail := "%s/>";
    assert TagEnd(m).None? by {
      assert m[1] == '%';
      assert SkipSlashes(m, 1) == 1;
    }
    assert m[1..] == tail + b;
    assert NoOpenAngle(tail);
    StripPlainPrefix(tail, b);
    NoTagsUnchanged(b);
    assert StripTags(m) == m by {
      assert StripTags(m) == [m[0]] + StripTags(m[1..]);
      assert [m[0]] + (tail + b) == m;
    }
    StripPlainPrefix(a, m);
    assert a + Marker + b == a + m;
  }

  /** Items without '<' split back at their one marker. */
  lemma SplitAtMarker(a: string, b: string)
    requires NoOpenAngle(a) && NoOpenAngle(b)
    ensures Split(a + Marker + b, Marker) == [a, b]
  {
    var s := a + Marker + b;
    assert s[|a|..|a| + 5] == Marker;
    assert OccursAt(s, Marker, |a|);
    forall j | 0 <= j < |a|
      ensures !OccursAt(s, Marker, j)
    {
      assert s[j] == a[j];
      if j + 5 <= |s| {
        assert s[j..j + 5][0] == s[j];
      }
    }
    var found := IndexOf(s, Marker);
    assert found == Some(|a|);
    assert s[..|a|] == a;
    assert s[|a| + 5..] == b;
    forall j | 0 <= j <= |b| - 5
      ensures !OccursAt(b, Marker, j)
    {
      assert b[j..j + 5][0] == b[j];
    }
    assert Split(b, Marker) == [b];
  }

  /** Two items without '<' give back exactly those two segments. */
  lemma TwoSegments(a: string, b: string)
    requires NoOpenAngle(a) && NoOpenAngle(b)
    ensures Segments(a + Marker + b) == [a, b]
  {
    MarkerKept(a, b);
    SplitAtMarker(a, b);
  }

  lemma TwoBodies(a: string, b: string)
    ensures UnorderedBody([a, b]) == a + Bullet + b
    ensures OrderedBody([a, b]) == a + "1. " + b
  {
    assert [a, b][1..] == [b];
    assert Join([b], Bullet) == b;
    assert NatToString(1) == "1";
    assert OrderedUpTo([a, b], 2) == OrderedUpTo([a, b], 1) + Label(1) + b;
  }

  /** Two items: an unordered list joins them with the bullet, an ordered one numbers the second "1. ". */
  lemma TwoItems(styles: ListStyles, a: string, b: string)
    requires NoOpenAngle(a) && NoOpenAngle(b)
    ensures ListHtml(styles, a + Marker + b, false) == "<ul style=\"" + styles.ul + "\">" + a + Bullet + b + "</ul>"
    ensures ListHtml(styles, a + Marker + b, true) == "<ol style=\"" + styles.ol + "\">" + a + "1. " + b + "</ol>"
  {
    TwoSegments(a, b);
    TwoBodies(a, b);
    Regroup("<ul style=\"" + styles.ul + "\">", a, Bullet, b, "</ul>");
    Regroup("<ol style=\"" + styles.ol + "\">", a, "1. ", b, "</ol>");
  }

  lemma Regroup(open: string, a: string, sep: string, b: string, close: string)
    ensures open + (a + sep + b) + close == open + a + sep + b + close
  {
  }

}
