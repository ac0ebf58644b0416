/**
 * The section extractor: from one provider record and one boundary pattern to
 * a `Gospel` value (day, title, reference, content).
 *
 * Go's regexp engine and the goquery HTML parser are foreign code; they enter
 * as the three functions of an `Engine`. Everything the extractor does around
 * them (deleting newlines and tabs, the no-match fallback, the missing-group
 * error, deleting the captured marker, picking the first title and reference
 * node, and the paragraph join) is modelled exactly.
 */
module Extract {
  import opened Wrappers
  import opened Text

  /** One element of the provider's JSON array (`gospelResponse`). */
  datatype RawRecord = RawRecord(postTitle: string, postContent: string)

  /** One extracted section for one day (`Gospel`). */
  datatype Gospel = Gospel(day: string, title: string, reference: string, content: string)

  /**
   * What goquery makes of an HTML fragment, reduced to what the extractor
   * reads: the texts of the `.Tit_Lectura` nodes, of the `.Tit_Negro_Normal`
   * nodes and of the `<p>` nodes, each in document order.
   */
  datatype Document = Document(titleNodes: seq<string>, referenceNodes: seq<string>, paragraphs: seq<string>)

  const EmptyDocument := Document([], [], [])

  /**
   * The foreign libraries. `findString(pattern, text)` is the leftmost match of
   * `pattern` in `text`, or "" when there is none (`Regexp.FindString`);
   * `findSubmatch(pattern, text)` is the match followed by its groups, or []
   * (`Regexp.FindStringSubmatch`); `parse` is goquery's document builder.
   */
  datatype Engine = Engine(
    findString: (string, string) -> string,
    findSubmatch: (string, string) -> seq<string>,
    parse: string -> Document)

  /** `selection.First().Text()`: the first node's text, or "" for an empty selection. */
  function FirstText(nodes: seq<string>): string
  {
    if nodes == [] then "" else nodes[0]
  }

  /** The body with every `\n` and then every `\t` deleted. */
  function Collapse(s: string): (r: string)
    ensures forall k :: 0 <= k < |r| ==> r[k] != '\n' && r[k] != '\t'
  {
    var noNewlines := DeleteAll(s, "\n");
    DeleteCharGone(s, '\n');
    DeleteCharGone(noNewlines, '\t');
    DeleteCharKeeps(noNewlines, '\t', '\n');
    assert '\n' !in noNewlines;
    var r := DeleteAll(noNewlines, "\t");
    assert forall k :: 0 <= k < |r| ==> r[k] in multiset(r);
    r
  }

  // ---------------------------------------------------------------------------
  // The paragraph join

  /** The non-empty texts of `ps`, in order. */
  function NonEmpty(ps: seq<string>): (r: seq<string>)
    ensures |r| <= |ps|
    ensures forall i :: 0 <= i < |r| ==> r[i] != ""
  {
    if ps == [] then []
    else NonEmpty(ps[..|ps| - 1]) + (if ps[|ps| - 1] == "" then [] else [ps[|ps| - 1]])
  }

  /**
   * The content the join rule yields, stated without the loop: the non-empty
   * paragraphs one per line, except that, outside the psalm, a non-empty
   * paragraph in the last node position that is not the first non-empty one
   * is set off by a blank line.
   */
  function Content(ps: seq<string>, psalm: bool): string
  {
    if !psalm && |ps| > 0 && ps[|ps| - 1] != "" && NonEmpty(ps[..|ps| - 1]) != [] then
      Join(NonEmpty(ps[..|ps| - 1]), "\n") + "\n\n" + ps[|ps| - 1]
    else
      Join(NonEmpty(ps), "\n")
  }

  /** The accumulator loop over the `<p>` nodes. */
  method JoinContent(ps: seq<string>, psalm: bool) returns (content: string)
    ensures content == Content(ps, psalm)
  {
    content := "";
    var i := 0;
    while i < |ps|
      invariant 0 <= i <= |ps|
      invariant i < |ps| ==> content == Join(NonEmpty(ps[..i]), "\n")
      invariant i == |ps| ==> content == Content(ps, psalm)
    {
      var nodeContent := ps[i];
      assert ps[..i + 1][..i] == ps[..i];
      assert NonEmpty(ps[..i + 1]) == NonEmpty(ps[..i]) + (if nodeContent == "" then [] else [nodeContent]);
      assert i + 1 == |ps| ==> ps[..i + 1] == ps;
      JoinEmptyIff(NonEmpty(ps[..i]), "\n");
      JoinSnoc(NonEmpty(ps[..i]), nodeContent, "\n");
      if nodeContent != "" {
        if content == "" {
          assert NonEmpty(ps[..i]) == [];
          assert NonEmpty(ps[..i + 1]) == [nodeContent];
          content := nodeContent;
          assert content == Join(NonEmpty(ps[..i + 1]), "\n");
        } else if !psalm && i == |ps| - 1 {
          content := content + "\n\n" + nodeContent;
          assert content == Content(ps, psalm);
        } else {
          content := content + "\n" + nodeContent;
          assert content == Join(NonEmpty(ps[..i + 1]), "\n");
        }
      } else {
        assert NonEmpty(ps[..i + 1]) == NonEmpty(ps[..i]);
      }
      assert i + 1 < |ps| ==> content == Join(NonEmpty(ps[..i + 1]), "\n");
      assert i + 1 == |ps| ==> content == Content(ps, psalm);
      i := i + 1;
    }
    if |ps| == 0 {
      assert content == Content(ps, psalm);
    }
  }

  // ---------------------------------------------------------------------------
  // Extraction (archimadrid/client.go)

  /** What `getGospelOrLectureFromResponse` returns, stated as one expression. */
  function FromResponse(response: RawRecord, pattern: string, psalm: bool, engine: Engine): Result<Gospel>
  {
    var text := engine.findString(pattern, Collapse(response.postContent));
    if text == "" then Ok(Gospel(response.postTitle, "", "", ""))
    else
      var groups := engine.findSubmatch(pattern, text);
      if |groups| <= 1 then Err("invalid regex")
      else
        var doc := engine.parse(DeleteAll(text, groups[1]));
        Ok(Gospel(response.postTitle, FirstText(doc.titleNodes), FirstText(doc.referenceNodes),
                  Content(doc.paragraphs, psalm)))
  }

  /** `getGospelOrLectureFromResponse`. */
  method GospelOrLectureFromResponse(response: RawRecord, pattern: string, psalm: bool, engine: Engine)
    returns (r: Result<Gospel>)
    ensures r == FromResponse(response, pattern, psalm, engine)
    // The day is always the record's title.
    ensures r.Ok? ==> r.value.day == response.postTitle
    // No match: a day-only value, and no error.
    ensures engine.findString(pattern, Collapse(response.postContent)) == "" ==>
              r == Ok(Gospel(response.postTitle, "", "", ""))
    // The only error: a match whose re-match yields no capture group.
    ensures r.Err? <==>
              var text := engine.findString(pattern, Collapse(response.postContent));
              text != "" && |engine.findSubmatch(pattern, text)| <= 1
    ensures r.Err? ==> r.msg == "invalid regex"
    // A match with a group: the marker is deleted before parsing, and the
    // fields come from the parsed fragment.
    ensures var text := engine.findString(pattern, Collapse(response.postContent));
            var groups := engine.findSubmatch(pattern, text);
            text != "" && |groups| > 1 ==>
              var doc := engine.parse(DeleteAll(text, groups[1]));
              r.Ok? && r.value.title == FirstText(doc.titleNodes) &&
              r.value.reference == FirstText(doc.referenceNodes) &&
              r.value.content == Content(doc.paragraphs, psalm)
  {
    var text := Collapse(response.postContent);
    text := engine.findString(pattern, text);
    if text == "" {
      return Ok(Gospel(response.postTitle, "", "", ""));
    }
    var groups := engine.findSubmatch(pattern, text);
    if |groups| <= 1 {
      return Err("invalid regex");
    }
    var replaceString := groups[1];
    text := DeleteAll(text, replaceString);
    var doc := engine.parse(text);
    var title := FirstText(doc.titleNodes);
    var reference := FirstText(doc.referenceNodes);
    var content := JoinContent(doc.paragraphs, psalm);
    r := Ok(Gospel(response.postTitle, title, reference, content));
  }

  // ---------------------------------------------------------------------------
  // Extraction, older revision (archimadrid/gospel.go)

  const LegacyGospelPattern := "EVANGELIO.*"
  const LegacyGospelMarker := "EVANGELIO"

  /** What the older `getGospelFromResponse` returns, stated as one expression. */
  function LegacyFromResponse(response: RawRecord, engine: Engine): Gospel
  {
    var text := DeleteAll(engine.findString(LegacyGospelPattern, Collapse(response.postContent)), LegacyGospelMarker);
    var doc := engine.parse(text);
    Gospel(response.postTitle, FirstText(doc.titleNodes), FirstText(doc.referenceNodes), Content(doc.paragraphs, false))
  }

  /**
   * The older `getGospelFromResponse`: a fixed `EVANGELIO.*` boundary, every
   * `EVANGELIO` deleted from the match, and the non-psalm join. No match gives
   * "" to the parser rather than a separate branch.
   */
  method LegacyGospelFromResponse(response: RawRecord, engine: Engine) returns (g: Gospel)
    ensures g == LegacyFromResponse(response, engine)
    ensures g.day == response.postTitle
    ensures engine.findString(LegacyGospelPattern, Collapse(response.postContent)) == "" ==>
              engine.parse("") == EmptyDocument ==> g == Gospel(response.postTitle, "", "", "")
    ensures var doc := engine.parse(DeleteAll(engine.findString(LegacyGospelPattern, Collapse(response.postContent)), LegacyGospelMarker));
            g.content == Content(doc.paragraphs, false)
  {
    var text := Collapse(response.postContent);
    text := engine.findString(LegacyGospelPattern, text);
    text := DeleteAll(text, LegacyGospelMarker);
    var doc := engine.parse(text);
    var title := FirstText(doc.titleNodes);
    var reference := FirstText(doc.referenceNodes);
    var content := JoinContent(doc.paragraphs, false);
    g := Gospel(response.postTitle, title, reference, content);
  }

  // ---------------------------------------------------------------------------
  // Laws of the join

  lemma {:induction false} NonEmptyAppend(a: seq<string>, b: seq<string>)
    ensures NonEmpty(a + b) == NonEmpty(a) + NonEmpty(b)
    decreases |b|
  {
    if b == [] {
      assert a + b == a;
    } else {
      var b' := b[..|b| - 1];
      assert (a + b)[..|a + b| - 1] == a + b';
      NonEmptyAppend(a, b');
    }
  }

  lemma {:induction false} NonEmptyAll(ps: seq<string>)
    requires forall i :: 0 <= i < |ps| ==> ps[i] != ""
    ensures NonEmpty(ps) == ps
  {
    if ps != [] {
      NonEmptyAll(ps[..|ps| - 1]);
      assert ps == ps[..|ps| - 1] + [ps[|ps| - 1]];
    }
  }

  /**
   * The content join law: for two or more paragraphs, all non-empty, every
   * paragraph goes on its own line and only the last one is preceded by a
   * blank line; the psalm join uses single newlines throughout.
   */
  lemma JoinLaw(ps: seq<string>)
    requires |ps| >= 2
    requires forall i :: 0 <= i < |ps| ==> ps[i] != ""
    ensures Content(ps, false) == Join(ps[..|ps| - 1], "\n") + "\n\n" + ps[|ps| - 1]
    ensures Content(ps, true) == Join(ps, "\n")
  {
    NonEmptyAll(ps);
    NonEmptyAll(ps[..|ps| - 1]);
  }

  /** An empty paragraph contributes nothing to the non-empty ones. */
  lemma NonEmptySkip(a: seq<string>, b: seq<string>)
    ensures NonEmpty(a + [""] + b) == NonEmpty(a + b)
  {
    var ae := a + [""];
    assert ae[..|ae| - 1] == a;
    NonEmptyAppend(ae, b);
    NonEmptyAppend(a, b);
  }

  /** Empty paragraphs anywhere but in the last node position change nothing. */
  lemma EmptyParagraphSkipped(a: seq<string>, b: seq<string>, psalm: bool)
    requires b != []
    ensures Content(a + [""] + b, psalm) == Content(a + b, psalm)
  {
    var x, y := a + [""] + b, a + b;
    var bl := b[..|b| - 1];
    assert x[..|x| - 1] == a + [""] + bl;
    assert y[..|y| - 1] == a + bl;
    NonEmptySkip(a, bl);
    ContentByLast(x, y, psalm);
  }

  /** The content depends only on the last node and the non-empty paragraphs before it. */
  lemma ContentByLast(x: seq<string>, y: seq<string>, psalm: bool)
    requires |x| > 0 && |y| > 0 && x[|x| - 1] == y[|y| - 1]
    requires NonEmpty(x[..|x| - 1]) == NonEmpty(y[..|y| - 1])
    ensures Content(x, psalm) == Content(y, psalm)
  {
  }

  /**
   * An empty `<p>` in the last node position takes the blank line away: the
   * content is then the plain one-per-line join, even outside the psalm.
   */
  lemma TrailingEmptyParagraph(ps: seq<string>, psalm: bool)
    ensures Content(ps + [""], psalm) == Join(NonEmpty(ps), "\n")
  {
    var x := ps + [""];
    assert x[..|x| - 1] == ps;
    assert NonEmpty(x) == NonEmpty(ps) + [];
    assert NonEmpty(ps) + [] == NonEmpty(ps);
  }

  /** The content starts with the first non-empty paragraph, with no separator before it. */
  lemma ContentStartsWithFirst(ps: seq<string>, psalm: bool)
    requires NonEmpty(ps) != []
    ensures |NonEmpty(ps)[0]| <= |Content(ps, psalm)|
    ensures Content(ps, psalm)[..|NonEmpty(ps)[0]|] == NonEmpty(ps)[0]
  {
    var first := NonEmpty(ps)[0];
    if !psalm && |ps| > 0 && ps[|ps| - 1] != "" && NonEmpty(ps[..|ps| - 1]) != [] {
      PrefixOfJoin(NonEmpty(ps[..|ps| - 1]), "\n");
      assert NonEmpty(ps)[0] == NonEmpty(ps[..|ps| - 1])[0];
    } else {
      PrefixOfJoin(NonEmpty(ps), "\n");
    }
  }

  /** No two newlines in a row. */
  predicate NoBlankLineIn(c: string)
  {
    forall i :: 0 <= i < |c| - 1 ==> c[i] != '\n' || c[i + 1] != '\n'
  }

  lemma NoBlankLineNoOccurrence(c: string)
    requires NoBlankLineIn(c)
    ensures !Occurs(c, "\n\n")
  {
    forall i | 0 <= i <= |c| ensures !OccursAt(c, "\n\n", i) {
      if i + 2 <= |c| {
        var w := c[i..i + 2];
        assert w[0] == c[i] && w[1] == c[i + 1];
        assert c[i] != '\n' || c[i + 1] != '\n';
        assert "\n\n"[0] == '\n' && "\n\n"[1] == '\n';
        assert w != "\n\n";
      }
    }
  }

  /** A join of non-empty lines without newlines has no blank line in it. */
  lemma {:induction false} JoinNoBlankLine(xs: seq<string>)
    requires forall i :: 0 <= i < |xs| ==> xs[i] != ""
    requires forall i, k :: 0 <= i < |xs| && 0 <= k < |xs[i]| ==> xs[i][k] != '\n'
    ensures NoBlankLineIn(Join(xs, "\n"))
  {
    if |xs| > 1 {
      var x, rest := xs[0], xs[1..];
      JoinNoBlankLine(rest);
      var j := Join(rest, "\n");
      PrefixOfJoin(rest, "\n");
      assert j[0] == rest[0][0];
      var c := x + "\n" + j;
      assert Join(xs, "\n") == c;
      forall i | 0 <= i < |c| - 1 ensures c[i] != '\n' || c[i + 1] != '\n' {
        if i < |x| {
          assert c[i] == x[i];
        } else if i == |x| {
          assert c[i + 1] == j[0];
        } else {
          assert c[i] == j[i - |x| - 1] && c[i + 1] == j[i - |x|];
        }
      }
    }
  }

  /**
   * The psalm join never inserts a blank line: when no paragraph holds a
   * newline itself, the psalm content holds no "\n\n".
   */
  lemma PsalmSingleNewlines(ps: seq<string>)
    requires forall i, k :: 0 <= i < |ps| && 0 <= k < |ps[i]| ==> ps[i][k] != '\n'
    ensures !Occurs(Content(ps, true), "\n\n")
  {
    NonEmptyChars(ps);
    JoinNoBlankLine(NonEmpty(ps));
    NoBlankLineNoOccurrence(Content(ps, true));
  }

  lemma {:induction false} NonEmptyChars(ps: seq<string>)
    ensures forall i :: 0 <= i < |NonEmpty(ps)| ==> NonEmpty(ps)[i] in ps
  {
    if ps != [] {
      var init := ps[..|ps| - 1];
      var last := ps[|ps| - 1];
      NonEmptyChars(init);
      var r := NonEmpty(ps);
      assert r == NonEmpty(init) + (if last == "" then [] else [last]);
      forall i | 0 <= i < |r| ensures r[i] in ps {
        if i < |NonEmpty(init)| {
          assert r[i] == NonEmpty(init)[i] && NonEmpty(init)[i] in init;
        } else {
          assert r[i] == last;
        }
      }
    }
  }

  /**
   * Outside the psalm, a non-empty last paragraph that follows other text is
   * always set off by a blank line.
   */
  lemma LastParagraphSetOff(ps: seq<string>, last: string)
    requires last != "" && NonEmpty(ps) != []
    ensures var c := Content(ps + [last], false);
            |c| >= |last| + 2 && c[|c| - |last| - 2..] == "\n\n" + last
  {
    var x := ps + [last];
    assert x[..|x| - 1] == ps && x[|x| - 1] == last;
    var j := Join(NonEmpty(ps), "\n");
    var c := j + "\n\n" + last;
    assert Content(x, false) == c;
    assert c[|j|..] == "\n\n" + last;
  }
}
