/** The label table parser of `PlagueDetectionModel.loadModel`: the text of
    `labels.txt` becomes the ordered list of class names, one per non-blank
    line, with an optional `"<index>: "` prefix removed. */
module Labels {
  import opened JsText
  import opened Seqs

  /** One line of the label file: `line.includes(':') ? line.split(':')[1].trim()
      : line.trim()`. */
  function ParseLine(line: string): (r: string)
    ensures Trimmed(r)
  {
    if ':' in line then
      SplitAtFirst(line, ':');
      Trim(Split(line, ':')[1])
    else Trim(line)
  }

  /** What each line of `text` becomes, in line order (the `map` step). */
  function ParseLines(lines: seq<string>): (r: seq<string>)
    ensures |r| == |lines|
    ensures forall k :: 0 <= k < |r| ==> r[k] == ParseLine(lines[k])
  {
    if lines == [] then [] else [ParseLine(lines[0])] + ParseLines(lines[1..])
  }

  predicate NonEmpty(s: string) { s != [] }

  /** The `filter(label => label !== '')` step. */
  function DropEmpty(xs: seq<string>): (r: seq<string>)
    ensures |r| <= |xs|
    ensures forall k :: 0 <= k < |r| ==> r[k] != []
  {
    if xs == [] then []
    else
      var last := |xs| - 1;
      DropEmpty(xs[..last]) + (if xs[last] != [] then [xs[last]] else [])
  }

  /** `labelsText.split('\n').map(ParseLine).filter(label => label !== '')`. */
  function ParseLabels(text: string): (r: seq<string>)
    ensures forall k :: 0 <= k < |r| ==> r[k] != []
  {
    DropEmpty(ParseLines(Split(text, '\n')))
  }

  /** `DropEmpty` keeps exactly the non-empty entries, in their original
      order: its k-th result is the entry at the k-th non-empty position. */
  lemma {:induction false} DropEmptySelects(xs: seq<string>)
    ensures var kept := Positions(xs, NonEmpty);
            |DropEmpty(xs)| == |kept| &&
            forall k :: 0 <= k < |kept| ==> DropEmpty(xs)[k] == xs[kept[k]]
  {
    if xs != [] {
      var last := |xs| - 1;
      DropEmptySelects(xs[..last]);
      assert forall j :: 0 <= j < last ==> xs[..last][j] == xs[j];
    }
  }

  /** The label table lists, in line order, the parse of exactly those lines
      of the file whose parse is not blank. */
  lemma LabelsKeepLineOrder(text: string)
    ensures var lines := Split(text, '\n');
            var kept := Positions(ParseLines(lines), NonEmpty);
            var labels := ParseLabels(text);
            |labels| == |kept|
            && (forall k :: 0 <= k < |kept| ==> kept[k] < |lines| && labels[k] == ParseLine(lines[kept[k]]))
            && (forall k, m :: 0 <= k < m < |kept| ==> kept[k] < kept[m])
            && (forall j :: 0 <= j < |lines| ==> (j in kept <==> ParseLine(lines[j]) != []))
  {
    DropEmptySelects(ParseLines(Split(text, '\n')));
  }

  /** A line with a colon yields the trimmed text between its first colon
      and the next colon (or the end of the line), so `"0: a:b"` yields
      `"a"` and anything after a second colon is lost; a line without a
      colon yields the whole line, trimmed. No label holds a colon. */
  lemma ParseLineMeaning(line: string)
    ensures ':' in line ==>
              var rest := line[FirstIndex(line, ':') + 1..];
              ParseLine(line) == Trim(rest[..FirstIndex(rest, ':')])
    ensures ':' !in line ==> ParseLine(line) == Trim(line)
    ensures ':' !in ParseLine(line)
  {
    if ':' in line {
      var i := FirstIndex(line, ':');
      SplitAtFirst(line, ':');
      SplitHead(line[i + 1..], ':');
      TrimAddsNothing(Split(line, ':')[1], ':');
    } else {
      TrimAddsNothing(line, ':');
    }
  }
}
