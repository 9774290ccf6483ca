/**
 * The line-protocol text the metrics store pushes: a measurement name, a list
 * of tag pairs each introduced by ',', one space, and one field=value pair.
 * The source writes these strings with template literals and never escapes
 * anything. Decode reads the unescaped, single-field subset of the format
 * (no timestamp: everything after the first space is one field=value pair),
 * and DecodeEncode shows the encoding loses nothing when names contain none
 * of the separators.
 */
module LineProtocol {
  import opened Wrappers
  import Decimal

  datatype Tag = Tag(key: string, value: string)

  datatype Point = Point(measurement: string, tags: seq<Tag>, field: string, value: string)

  function TagText(t: Tag): string {
    t.key + "=" + t.value
  }

  function TagsText(tags: seq<Tag>): string {
    if tags == [] then "" else "," + TagText(tags[0]) + TagsText(tags[1..])
  }

  /** measurement,key1=value1,key2=value2 field=value */
  function Encode(p: Point): string {
    p.measurement + TagsText(p.tags) + " " + p.field + "=" + p.value
  }

  /** A name, tag or field with none of the three separators in it. */
  predicate Plain(s: string) {
    forall i :: 0 <= i < |s| ==> s[i] != ',' && s[i] != ' ' && s[i] != '='
  }

  predicate Encodable(p: Point) {
    Plain(p.measurement) && Plain(p.field) &&
    forall t :: t in p.tags ==> Plain(t.key) && Plain(t.value)
  }

  /** The position of the first c in s, if any. */
  function IndexOf(s: string, c: char): (r: Option<nat>)
    ensures r.Some? ==> r.value < |s| && s[r.value] == c && c !in s[..r.value]
    ensures r.None? <==> c !in s
  {
    if s == [] then None
    else if s[0] == c then Some(0)
    else match IndexOf(s[1..], c)
      case None => None
      case Some(i) =>
        assert s[..i + 1] == [s[0]] + s[1..][..i];
        Some(i + 1)
  }

  /** The pieces of s between occurrences of c (always at least one). */
  function SplitOn(s: string, c: char): (parts: seq<string>)
    ensures |parts| >= 1
    ensures forall k :: 0 <= k < |parts| ==> c !in parts[k]
    decreases |s|
  {
    match IndexOf(s, c)
    case None => [s]
    case Some(i) => [s[..i]] + SplitOn(s[i + 1..], c)
  }

  function ParseTag(text: string): Option<Tag> {
    match IndexOf(text, '=')
    case None => None
    case Some(i) => Some(Tag(text[..i], text[i + 1..]))
  }

  function ParseTags(texts: seq<string>): Option<seq<Tag>> {
    if texts == [] then Some([])
    else match (ParseTag(texts[0]), ParseTags(texts[1..]))
      case (Some(t), Some(rest)) => Some([t] + rest)
      case _ => None
  }

  /** Splits a line at its first space, the part before it at every ',', and each pair at its first '='. */
  function Decode(line: string): Option<Point> {
    match IndexOf(line, ' ')
    case None => None
    case Some(sp) =>
      var head := SplitOn(line[..sp], ',');
      match (ParseTags(head[1..]), ParseTag(line[sp + 1..]))
      case (Some(tags), Some(fv)) => Some(Point(head[0], tags, fv.key, fv.value))
      case _ => None
  }

  function TagTexts(tags: seq<Tag>): seq<string> {
    if tags == [] then [] else [TagText(tags[0])] + TagTexts(tags[1..])
  }

  /** The first c of a + [c] + b is the one after a, when a has none. */
  lemma IndexOfFirst(a: string, c: char, b: string)
    requires c !in a
    ensures IndexOf(a + [c] + b, c) == Some(|a|)
  {
    var s := a + [c] + b;
    assert s[|a|] == c;
    assert forall k :: 0 <= k < |a| ==> s[k] == a[k];
  }

  lemma {:induction false} TagsTextHasNoSpace(tags: seq<Tag>)
    requires forall t :: t in tags ==> Plain(t.key) && Plain(t.value)
    ensures ' ' !in TagsText(tags)
    decreases |tags|
  {
    if tags != [] {
      TagsTextHasNoSpace(tags[1..]);
      assert forall t :: t in tags[1..] ==> t in tags;
    }
  }

  /** A tag of plain parts has no comma in its text. */
  lemma TagTextHasNoComma(t: Tag)
    requires Plain(t.key) && Plain(t.value)
    ensures ',' !in TagText(t)
  {
    var y := TagText(t);
    assert forall k :: 0 <= k < |y| ==> y[k] != ',' by {
      forall k | 0 <= k < |y|
        ensures y[k] != ','
      {
        if k < |t.key| {
          assert y[k] == t.key[k];
        } else if k > |t.key| {
          assert y[k] == t.value[k - |t.key| - 1];
        }
      }
    }
  }

  /** Splitting at a first separator after x peels x off. */
  lemma SplitOnFirst(x: string, c: char, rest: string)
    requires c !in x
    ensures SplitOn(x + [c] + rest, c) == [x] + SplitOn(rest, c)
  {
    var s := x + [c] + rest;
    IndexOfFirst(x, c, rest);
    assert s[..|x|] == x;
    assert s[|x| + 1..] == rest;
  }

  lemma {:induction false} SplitTags(x: string, tags: seq<Tag>)
    requires ',' !in x
    requires forall t :: t in tags ==> Plain(t.key) && Plain(t.value)
    ensures SplitOn(x + TagsText(tags), ',') == [x] + TagTexts(tags)
    decreases |tags|
  {
    if tags == [] {
      assert x + TagsText(tags) == x;
    } else {
      var y := TagText(tags[0]);
      assert tags[0] in tags;
      TagTextHasNoComma(tags[0]);
      assert forall u :: u in tags[1..] ==> u in tags;
      var rest := y + TagsText(tags[1..]);
      assert x + TagsText(tags) == x + [','] + rest;
      SplitOnFirst(x, ',', rest);
      SplitTags(y, tags[1..]);
    }
  }

  /** A plain name holds none of the three separators. */
  lemma PlainHasNoSeparator(s: string)
    requires Plain(s)
    ensures ',' !in s && ' ' !in s && '=' !in s
  {
  }

  lemma ParseTagText(t: Tag)
    requires '=' !in t.key
    ensures ParseTag(TagText(t)) == Some(t)
  {
    var s := t.key + ['='] + t.value;
    IndexOfFirst(t.key, '=', t.value);
    assert TagText(t) == s;
    assert s[..|t.key|] == t.key;
    assert s[|t.key| + 1..] == t.value;
  }

  lemma {:induction false} ParseTagTexts(tags: seq<Tag>)
    requires forall t :: t in tags ==> Plain(t.key) && Plain(t.value)
    ensures ParseTags(TagTexts(tags)) == Some(tags)
    decreases |tags|
  {
    if tags != [] {
      var texts := TagTexts(tags);
      assert tags[0] in tags;
      PlainHasNoSeparator(tags[0].key);
      ParseTagText(tags[0]);
      assert forall u :: u in tags[1..] ==> u in tags;
      ParseTagTexts(tags[1..]);
      assert texts[0] == TagText(tags[0]);
      assert texts[1..] == TagTexts(tags[1..]);
      assert [tags[0]] + tags[1..] == tags;
    }
  }

  /** Decoding an encoded point gives the point back when its names are plain. */
  lemma DecodeEncode(p: Point)
    requires Encodable(p)
    ensures Decode(Encode(p)) == Some(p)
  {
    var head := p.measurement + TagsText(p.tags);
    var tail := p.field + "=" + p.value;
    TagsTextHasNoSpace(p.tags);
    assert ' ' !in head;
    assert Encode(p) == head + [' '] + tail;
    IndexOfFirst(head, ' ', tail);
    assert (head + [' '] + tail)[..|head|] == head;
    assert (head + [' '] + tail)[|head| + 1..] == tail;
    SplitTags(p.measurement, p.tags);
    ParseTagTexts(p.tags);
    ParseTagText(Tag(p.field, p.value));
  }

  /** Distinct plain points are never sent as the same line. */
  lemma EncodeInjective(p: Point, q: Point)
    requires Encodable(p) && Encodable(q)
    requires Encode(p) == Encode(q)
    ensures p == q
  {
    DecodeEncode(p);
    DecodeEncode(q);
  }

  /** The point of an HTTP request-count line: tags source and method, one integer field. */
  function HttpPoint(prefix: string, source: string, httpMethod: string, name: string, value: int): Point {
    Point(prefix, [Tag("source", source), Tag("method", httpMethod)], name, Decimal.IntToString(value))
  }

  /** The point of every other line: the one tag source and one field. */
  function SourcePoint(measurement: string, source: string, field: string, value: string): Point {
    Point(measurement, [Tag("source", source)], field, value)
  }

  /** The text the HTTP metric builder sends. */
  function HttpLine(prefix: string, source: string, httpMethod: string, name: string, value: int): string {
    Encode(HttpPoint(prefix, source, httpMethod, name, value))
  }

  /** The text every other builder sends. */
  function SourceLine(measurement: string, source: string, field: string, value: string): string {
    Encode(SourcePoint(measurement, source, field, value))
  }

  /** An HTTP line is exactly the template the builder writes. */
  lemma HttpLineTemplate(prefix: string, source: string, httpMethod: string, name: string, value: int)
    ensures HttpLine(prefix, source, httpMethod, name, value) ==
      prefix + ",source=" + source + ",method=" + httpMethod + " " + name + "=" + Decimal.IntToString(value)
  {
    var tags := [Tag("source", source), Tag("method", httpMethod)];
    var first, second := ",source=" + source, ",method=" + httpMethod;
    assert "," + "source" + "=" == ",source=";
    assert "," + "method" + "=" == ",method=";
    assert tags[1..][1..] == [];
    assert TagsText(tags[1..]) == second;
    assert TagsText(tags) == first + second;
  }

  /** Every other line is exactly its builder's template. */
  lemma SourceLineTemplate(measurement: string, source: string, field: string, value: string)
    ensures SourceLine(measurement, source, field, value) ==
      measurement + ",source=" + source + " " + field + "=" + value
  {
    var tags := [Tag("source", source)];
    assert tags[1..] == [];
    assert TagsText(tags) == ",source=" + source;
  }
}
