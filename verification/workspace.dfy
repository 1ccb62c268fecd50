/**
 * The sequence panel of the front end: `parseSequence` cuts an outreach
 * sequence into its messages at the literal delimiter `---`, trims each
 * message and drops the empty ones; the panel then labels message 0
 * "Initial Message" and message i "Follow-up i", or shows a placeholder
 * when there is no sequence at all.
 */
module Workspace {
  import opened Wrappers
  import opened JsText

  const Delimiter: string := "---"
  const InitialLabel: string := "Initial Message"
  const FollowUpPrefix: string := "Follow-up "
  const PlaceholderText: string := "No sequence generated yet. Start a conversation to generate a sequence."

  /** `pieces.map(part => part.trim())`. */
  function TrimAll(pieces: seq<string>): (ts: seq<string>)
    ensures |ts| == |pieces| && forall k :: 0 <= k < |ts| ==> ts[k] == Trim(pieces[k])
  {
    seq(|pieces|, k requires 0 <= k < |pieces| => Trim(pieces[k]))
  }

  /** `xs.filter(part => part.length > 0)`: the non-empty strings, nothing else. */
  function DropEmpty(xs: seq<string>): (ys: seq<string>)
    ensures |ys| <= |xs|
    ensures forall y :: y in ys ==> y != [] && y in xs
  {
    if xs == [] then [] else (if xs[0] != [] then [xs[0]] else []) + DropEmpty(xs[1..])
  }

  /** The positions, counted from `base`, of the strings `DropEmpty` keeps, in increasing order. */
  function KeptFrom(xs: seq<string>, base: nat): seq<nat> {
    if xs == [] then []
    else (if xs[0] != [] then [base] else []) + KeptFrom(xs[1..], base + 1)
  }

  /** The positions in `xs` of the strings `DropEmpty` keeps. */
  function KeptIndices(xs: seq<string>): seq<nat> {
    KeptFrom(xs, 0)
  }

  lemma {:induction false} KeptFromMatches(xs: seq<string>, base: nat)
    ensures |KeptFrom(xs, base)| == |DropEmpty(xs)|
    ensures forall k :: 0 <= k < |KeptFrom(xs, base)| ==>
      base <= KeptFrom(xs, base)[k] < base + |xs| && DropEmpty(xs)[k] == xs[KeptFrom(xs, base)[k] - base]
  {
    if xs != [] {
      KeptFromMatches(xs[1..], base + 1);
      var idx, rest := KeptFrom(xs, base), KeptFrom(xs[1..], base + 1);
      var ys, more := DropEmpty(xs), DropEmpty(xs[1..]);
      var h := if xs[0] != [] then 1 else 0;
      assert idx == (if xs[0] != [] then [base] else []) + rest;
      assert ys == (if xs[0] != [] then [xs[0]] else []) + more;
      forall k | 0 <= k < |idx| ensures base <= idx[k] < base + |xs| && ys[k] == xs[idx[k] - base] {
        if k >= h {
          assert idx[k] == rest[k - h];
          assert ys[k] == more[k - h] == xs[1..][rest[k - h] - (base + 1)];
        }
      }
    }
  }

  lemma {:induction false} KeptFromIncreasing(xs: seq<string>, base: nat)
    ensures forall k :: 0 <= k < |KeptFrom(xs, base)| ==> base <= KeptFrom(xs, base)[k]
    ensures forall k, l :: 0 <= k < l < |KeptFrom(xs, base)| ==> KeptFrom(xs, base)[k] < KeptFrom(xs, base)[l]
  {
    if xs != [] {
      KeptFromIncreasing(xs[1..], base + 1);
      var idx, rest := KeptFrom(xs, base), KeptFrom(xs[1..], base + 1);
      var h := if xs[0] != [] then 1 else 0;
      assert idx == (if xs[0] != [] then [base] else []) + rest;
      forall k | 0 <= k < |idx| ensures base <= idx[k] {
        if k >= h { assert idx[k] == rest[k - h]; }
      }
      forall k, l | 0 <= k < l < |idx| ensures idx[k] < idx[l] {
        assert idx[l] == rest[l - h];
        if k >= h { assert idx[k] == rest[k - h]; }
      }
    }
  }

  lemma {:induction false} KeptFromComplete(xs: seq<string>, base: nat)
    ensures forall j :: 0 <= j < |xs| && xs[j] != [] ==> base + j in KeptFrom(xs, base)
  {
    if xs != [] {
      KeptFromComplete(xs[1..], base + 1);
      var idx, rest := KeptFrom(xs, base), KeptFrom(xs[1..], base + 1);
      assert idx == (if xs[0] != [] then [base] else []) + rest;
      forall j | 0 <= j < |xs| && xs[j] != [] ensures base + j in idx {
        if j > 0 {
          assert xs[1..][j - 1] == xs[j];
          assert base + 1 + (j - 1) in rest;
        }
      }
    }
  }

  /**
   * `DropEmpty` keeps order: its k-th result is the string at the k-th kept position,
   * the kept positions increase, and every non-empty string is kept.
   */
  lemma DropEmptyKeepsOrder(xs: seq<string>)
    ensures var idx, ys := KeptIndices(xs), DropEmpty(xs);
      |idx| == |ys| &&
      (forall k :: 0 <= k < |idx| ==> idx[k] < |xs| && ys[k] == xs[idx[k]]) &&
      (forall k, l :: 0 <= k < l < |idx| ==> idx[k] < idx[l]) &&
      (forall j :: 0 <= j < |xs| && xs[j] != [] ==> j in idx)
  {
    KeptFromMatches(xs, 0);
    KeptFromIncreasing(xs, 0);
    KeptFromComplete(xs, 0);
  }

  /** Every string is non-empty, so `DropEmpty` keeps them all. */
  lemma {:induction false} DropEmptyKeepsAll(xs: seq<string>)
    requires forall k :: 0 <= k < |xs| ==> xs[k] != []
    ensures DropEmpty(xs) == xs
  {
    if xs != [] {
      DropEmptyKeepsAll(xs[1..]);
      assert [xs[0]] + xs[1..] == xs;
    }
  }

  /** Every piece of a split is free of the separator. */
  lemma PiecesFree(ps: seq<string>, sep: string)
    requires sep != [] && WellSplit(ps, sep)
    ensures forall k :: 0 <= k < |ps| ==> Free(ps[k], sep)
  {
    forall k | 0 <= k < |ps| ensures Free(ps[k], sep) {
      if k < |ps| - 1 {
        BoundaryIsFree(ps[k], sep);
      }
    }
  }

  /** Trimming a piece free of the delimiter keeps it free. */
  lemma TrimmedFree(p: string)
    requires Free(p, Delimiter)
    ensures Free(Trim(p), Delimiter)
  {
    var a, t := LeadingWhitespace(p), Trim(p);
    FreeSlice(p, Delimiter, a, a + |t|);
  }

  /** Trimming the pieces of a split keeps them free of the delimiter. */
  lemma TrimmedPiecesFree(pieces: seq<string>)
    requires WellSplit(pieces, Delimiter)
    ensures forall p :: p in TrimAll(pieces) ==> IsTrimmed(p) && Free(p, Delimiter)
  {
    var trimmed := TrimAll(pieces);
    PiecesFree(pieces, Delimiter);
    forall k | 0 <= k < |trimmed| ensures IsTrimmed(trimmed[k]) && Free(trimmed[k], Delimiter) {
      TrimmedFree(pieces[k]);
    }
  }

  /**
   * `parseSequence(sequence)`: every message is non-empty, trimmed and free of the
   * delimiter, and there is at most one message more than there are delimiters.
   */
  function ParseSequence(sequence: string): (parts: seq<string>)
    ensures forall p :: p in parts ==> p != [] && IsTrimmed(p) && Free(p, Delimiter)
    ensures |parts| <= CountSep(sequence, Delimiter) + 1
  {
    var pieces := Split(sequence, Delimiter);
    TrimmedPiecesFree(pieces);
    DropEmpty(TrimAll(pieces))
  }

  /**
   * Messages come out in the order of the delimited segments they were cut from:
   * message k is the trimmed segment at an increasing position, and no non-blank segment is lost.
   */
  lemma ParseSequenceKeepsOrder(sequence: string)
    ensures var segments, parts := Split(sequence, Delimiter), ParseSequence(sequence);
      var idx := KeptIndices(TrimAll(segments));
      |idx| == |parts| &&
      (forall k :: 0 <= k < |idx| ==> idx[k] < |segments| && parts[k] == Trim(segments[idx[k]])) &&
      (forall k, l :: 0 <= k < l < |idx| ==> idx[k] < idx[l]) &&
      (forall j :: 0 <= j < |segments| && Trim(segments[j]) != [] ==> j in idx)
  {
    var segments := Split(sequence, Delimiter);
    var trimmed := TrimAll(segments);
    assert ParseSequence(sequence) == DropEmpty(trimmed);
    DropEmptyKeepsOrder(trimmed);
  }

  /** Matches are taken left to right without overlap: four dashes split into an empty piece and `-`. */
  lemma SplitFourDashes()
    ensures Split("----", Delimiter) == ["", "-"]
    ensures ParseSequence("----") == ["-"]
  {
    var ps := ["", "-"];
    assert Boundary(ps[0], Delimiter);
    assert Free(ps[1], Delimiter);
    assert Join(ps, Delimiter) == "----" by {
      assert Join(ps[1..], Delimiter) == "-";
    }
    SplitJoin(ps, Delimiter);
    assert Trim("-") == "-" by { assert !IsWhitespace('-'); }
    var trimmed := TrimAll(ps);
    assert trimmed == ["", "-"];
    assert trimmed[1..] == ["-"] && ["-"][1..] == [];
    assert DropEmpty(trimmed) == ["-"];
  }

  /** When no segment is blank, every segment becomes a message: one more than there are delimiters. */
  lemma ParseSequenceExact(sequence: string)
    requires forall k :: 0 <= k < |Split(sequence, Delimiter)| ==> Trim(Split(sequence, Delimiter)[k]) != []
    ensures ParseSequence(sequence) == TrimAll(Split(sequence, Delimiter))
    ensures |ParseSequence(sequence)| == CountSep(sequence, Delimiter) + 1
  {
    DropEmptyKeepsAll(TrimAll(Split(sequence, Delimiter)));
  }

  /** A segment that has no `---` and does not end in `-` is closed exactly by the delimiter after it. */
  lemma DashBoundary(p: string)
    requires Free(p, Delimiter) && (p == [] || p[|p| - 1] != '-')
    ensures Boundary(p, Delimiter)
  {
    var t := p + Delimiter;
    forall i | 0 <= i < |p| ensures !SepAt(t, Delimiter, i) {
      if i + 3 <= |p| {
        SepAtPrefix(t, p, Delimiter, i);
      } else if i + 3 <= |t| {
        var w := t[i..i + 3];
        assert w[|p| - 1 - i] == p[|p| - 1];
        assert w != Delimiter by { assert Delimiter[|p| - 1 - i] == '-'; }
      }
    }
  }

  lemma DashSegmentsWellSplit(segments: seq<string>)
    requires |segments| >= 1
    requires forall k :: 0 <= k < |segments| ==> Free(segments[k], Delimiter)
    requires forall k :: 0 <= k < |segments| - 1 ==> segments[k] == [] || segments[k][|segments[k]| - 1] != '-'
    ensures WellSplit(segments, Delimiter)
  {
    forall k | 0 <= k < |segments| - 1 ensures Boundary(segments[k], Delimiter) {
      DashBoundary(segments[k]);
    }
  }

  /**
   * Joining non-blank segments with `---` and parsing the result gives back the trimmed
   * segments one for one, provided no segment holds `---` and none but the last ends in `-`:
   * the sequence of one initial message and three follow-ups yields four messages.
   */
  lemma {:induction false} ParseJoined(segments: seq<string>)
    requires |segments| >= 1
    requires forall k :: 0 <= k < |segments| ==> Free(segments[k], Delimiter) && Trim(segments[k]) != []
    requires forall k :: 0 <= k < |segments| - 1 ==> segments[k] == [] || segments[k][|segments[k]| - 1] != '-'
    ensures ParseSequence(Join(segments, Delimiter)) == TrimAll(segments)
    ensures |ParseSequence(Join(segments, Delimiter))| == |segments|
  {
    DashSegmentsWellSplit(segments);
    var text := Join(segments, Delimiter);
    SplitJoin(segments, Delimiter);
    assert Split(text, Delimiter) == segments;
    var trimmed := TrimAll(segments);
    assert forall k :: 0 <= k < |trimmed| ==> trimmed[k] != [];
    DropEmptyKeepsAll(trimmed);
    assert ParseSequence(text) == DropEmpty(trimmed);
  }

  /** The header above message `index`: it reads back the follow-up number, so no two headers coincide. */
  function Header(index: nat): (h: string)
    ensures index == 0 <==> h == InitialLabel
    ensures index > 0 ==> |h| > |FollowUpPrefix| && h[..|FollowUpPrefix|] == FollowUpPrefix
    ensures index > 0 ==> var n := h[|FollowUpPrefix|..];
      (forall i :: 0 <= i < |n| ==> IsDigit(n[i])) && ReadDecimal(n) == index
    ensures index > 0 ==> h[|FollowUpPrefix|] != '0'
  {
    if index == 0 then InitialLabel
    else
      var n := Decimal(index);
      var h := FollowUpPrefix + n;
      ReadDecimalOfDecimal(index);
      assert h[|FollowUpPrefix|..] == n;
      assert h[0] != InitialLabel[0];
      h
  }

  /** Distinct messages get distinct headers. */
  lemma HeadersDistinct(i: nat, j: nat)
    requires i != j
    ensures Header(i) != Header(j)
  {
  }

  datatype MessageBox = MessageBox(header: string, lines: seq<string>)

  datatype View = Placeholder(text: string) | Messages(boxes: seq<MessageBox>)

  /**
   * One box per message, labelled by position, its body cut at every line break: the
   * lines contain no `\n` and join back to the message, which by `SplitJoin` makes them
   * exactly `Split(message, "\n")`.
   */
  function Boxes(parts: seq<string>): (boxes: seq<MessageBox>)
    ensures |boxes| == |parts|
    ensures forall k :: 0 <= k < |parts| ==>
      boxes[k].header == Header(k) && WellSplit(boxes[k].lines, "\n") && Join(boxes[k].lines, "\n") == parts[k]
  {
    seq(|parts|, k requires 0 <= k < |parts| => MessageBox(Header(k), Split(parts[k], "\n")))
  }

  /**
   * What the panel shows for the current sequence: the placeholder when it is absent or
   * empty, otherwise one box per parsed message, headed by its label, its body split into lines.
   */
  function Render(sequence: Option<string>): (v: View)
    ensures v.Placeholder? <==> sequence == None || sequence == Some("")
    ensures v.Placeholder? ==> v.text == PlaceholderText
    ensures v.Messages? ==> var parts := ParseSequence(sequence.value);
      |v.boxes| == |parts| &&
      forall k :: 0 <= k < |parts| ==>
        v.boxes[k].header == Header(k) && WellSplit(v.boxes[k].lines, "\n") && Join(v.boxes[k].lines, "\n") == parts[k]
  {
    if sequence == None || sequence == Some("") then Placeholder(PlaceholderText)
    else
      Messages(Boxes(ParseSequence(sequence.value)))
  }
}
