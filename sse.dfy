/**
 * The line accumulator of `_event_stream_loop`: Server-Sent Events framing as read by the
 * agent (WHATWG HTML Living Standard, section 9.2 "Server-sent events", restricted to the
 * `event:` and `data:` fields, with every line stripped of surrounding whitespace first).
 */
module Sse {
  import opened Wrappers
  import Text

  /** How the loop reads one line once it has been stripped. */
  datatype LineKind = Blank | Keepalive | EventName(name: string) | DataPart(part: string) | Ignored

  function Classify(raw: string): (k: LineKind)
    ensures k == Blank <==> Text.Strip(raw) == ""
    ensures k.EventName? ==> Text.StartsWith(Text.Strip(raw), "event:") && |k.name| < |raw|
    ensures k.DataPart? ==> Text.StartsWith(Text.Strip(raw), "data:") && |k.part| < |raw|
  {
    var line := Text.Strip(raw);
    if line == "" then Blank
    else if line == ": keepalive" then Keepalive
    else if Text.StartsWith(line, "event:") then EventName(Text.Strip(line[6..]))
    else if Text.StartsWith(line, "data:") then DataPart(Text.Strip(line[5..]))
    else Ignored
  }

  /** A dispatched frame: the event name, if one was given, and the joined data. */
  datatype Frame = Frame(name: Option<string>, data: string)

  /** `current_event_name` and `current_event_data`. */
  datatype Accumulator = Accumulator(name: Option<string>, data: Option<string>)

  const Empty := Accumulator(None, None)

  /** The accumulator after a line of the given kind, and the frame that line dispatches, if any. */
  function Next(acc: Accumulator, k: LineKind): (Accumulator, Option<Frame>) {
    match k
    case Blank => (Empty, if acc.data.Some? then Some(Frame(acc.name, acc.data.value)) else None)
    case Keepalive => (acc, None)
    case EventName(n) => (acc.(name := Some(n)), None)
    case DataPart(p) => (acc.(data := Some(if acc.data.None? then p else acc.data.value + "\n" + p)), None)
    case Ignored => (acc, None)
  }

  /** One iteration of the loop body. */
  function Step(acc: Accumulator, raw: string): (r: (Accumulator, Option<Frame>))
    ensures Classify(raw).Blank? ==> r.0 == Empty
    ensures Classify(raw).Blank? ==> (r.1.Some? <==> acc.data.Some?)
    ensures r.1.Some? ==> Classify(raw).Blank? && r.1.value == Frame(acc.name, acc.data.value)
    ensures Classify(raw).Keepalive? || Classify(raw).Ignored? ==> r.0 == acc
    ensures Classify(raw).EventName? ==> r.0 == Accumulator(Some(Classify(raw).name), acc.data)
    ensures Classify(raw).DataPart? ==> r.0.name == acc.name && r.0.data.Some?
  {
    Next(acc, Classify(raw))
  }

  function Dispatched(f: Option<Frame>): seq<Frame> {
    if f.Some? then [f.value] else []
  }

  /** The kind of every line, in order. */
  function Kinds(lines: seq<string>): (ks: seq<LineKind>)
    ensures |ks| == |lines|
    ensures forall i :: 0 <= i < |lines| ==> ks[i] == Classify(lines[i])
  {
    if lines == [] then [] else Kinds(lines[..|lines| - 1]) + [Classify(lines[|lines| - 1])]
  }

  /** Reading one more line adds its kind at the end. */
  lemma KindsStep(lines: seq<string>, i: nat)
    requires i < |lines|
    ensures Kinds(lines[..i + 1]) == Kinds(lines[..i]) + [Classify(lines[i])]
  {
    assert lines[..i + 1][..i] == lines[..i];
  }

  /** The kinds of the lines from the `i`-th on: the `i`-th line's, then those of the lines after it. */
  lemma KindsFrom(lines: seq<string>, i: nat)
    requires i < |lines|
    ensures Kinds(lines[i..]) == [Classify(lines[i])] + Kinds(lines[i + 1..])
  {
    var whole, parts := Kinds(lines[i..]), [Classify(lines[i])] + Kinds(lines[i + 1..]);
    forall k | 0 <= k < |whole|
      ensures whole[k] == parts[k]
    {
      if k > 0 {
        assert lines[i..][k] == lines[i + 1..][k - 1];
      }
    }
  }

  /** The same, after the kinds `read` of the lines read before. */
  lemma KindsAfter(read: seq<LineKind>, lines: seq<string>, i: nat)
    requires i < |lines|
    ensures read + Kinds(lines[..i]) + [Classify(lines[i])] == read + Kinds(lines[..i + 1])
  {
    KindsStep(lines, i);
    assert read + Kinds(lines[..i]) + [Classify(lines[i])] == read + (Kinds(lines[..i]) + [Classify(lines[i])]);
  }

  /** Lines of kinds `ks` read from the accumulator `acc`: the accumulator they reach and the frames they dispatch. */
  function ScanFrom(acc: Accumulator, ks: seq<LineKind>): (r: (Accumulator, seq<Frame>))
    ensures |r.1| <= |ks|
    decreases ks
  {
    if ks == [] then (acc, [])
    else
      var next := Next(acc, ks[0]);
      var rest := ScanFrom(next.0, ks[1..]);
      (rest.0, Dispatched(next.1) + rest.1)
  }

  /** The accumulator and the frames dispatched after reading lines of kinds `ks` from the start of a stream. */
  function Scan(ks: seq<LineKind>): (r: (Accumulator, seq<Frame>))
    ensures |r.1| <= |ks|
  {
    ScanFrom(Empty, ks)
  }

  /** Scanning `a + b` is scanning `a`, then scanning `b` from the accumulator `a` reached. */
  lemma {:induction false} ScanFromSplit(acc: Accumulator, a: seq<LineKind>, b: seq<LineKind>)
    ensures var first := ScanFrom(acc, a);
      var rest := ScanFrom(first.0, b);
      ScanFrom(acc, a + b) == (rest.0, first.1 + rest.1)
    decreases |a|
  {
    if a == [] {
      assert a + b == b;
      assert [] + ScanFrom(acc, b).1 == ScanFrom(acc, b).1;
    } else {
      var next := Next(acc, a[0]);
      assert (a + b)[0] == a[0] && (a + b)[1..] == a[1..] + b;
      ScanFromSplit(next.0, a[1..], b);
      var rest := ScanFrom(ScanFrom(next.0, a[1..]).0, b);
      assert Dispatched(next.1) + ScanFrom(next.0, a[1..]).1 + rest.1 == Dispatched(next.1) + (ScanFrom(next.0, a[1..]).1 + rest.1);
    }
  }

  /** Reading one more line steps the accumulator from where the earlier lines left it. */
  lemma ScanSnoc(ks: seq<LineKind>, k: LineKind)
    ensures Scan(ks + [k]) == (Next(Scan(ks).0, k).0, Scan(ks).1 + Dispatched(Next(Scan(ks).0, k).1))
  {
    ScanFromSplit(Empty, ks, [k]);
    var next := Next(Scan(ks).0, k);
    assert [k][1..] == [];
    assert ScanFrom(Scan(ks).0, [k]) == (next.0, Dispatched(next.1) + []);
    assert Dispatched(next.1) + [] == Dispatched(next.1);
  }

  /** The loop of `_event_stream_loop` over the lines the stream delivered. */
  method ParseStream(lines: seq<string>) returns (frames: seq<Frame>, acc: Accumulator)
    ensures frames == ReferenceFrames(Kinds(lines))
    ensures acc == BlockState(OpenBlock(Kinds(lines)))
  {
    frames, acc := [], Empty;
    var i := 0;
    while i < |lines|
      invariant 0 <= i <= |lines|
      invariant (acc, frames) == Scan(Kinds(lines[..i]))
    {
      KindsStep(lines, i);
      ScanSnoc(Kinds(lines[..i]), Classify(lines[i]));
      var next := Step(acc, lines[i]);
      acc := next.0;
      frames := frames + Dispatched(next.1);
      i := i + 1;
    }
    assert lines[..i] == lines;
    ScanMatchesReference(Kinds(lines));
  }

  // ---- Reference semantics: frames are the blank-terminated blocks of lines ----

  /** The lines after the last blank line: the block still being accumulated. */
  function OpenBlock(ks: seq<LineKind>): seq<LineKind> {
    if ks == [] then []
    else if ks[|ks| - 1].Blank? then []
    else OpenBlock(ks[..|ks| - 1]) + [ks[|ks| - 1]]
  }

  /** The complete blocks: each run of lines that a blank line terminates, in order. */
  function Blocks(ks: seq<LineKind>): seq<seq<LineKind>> {
    if ks == [] then []
    else if ks[|ks| - 1].Blank? then Blocks(ks[..|ks| - 1]) + [OpenBlock(ks[..|ks| - 1])]
    else Blocks(ks[..|ks| - 1])
  }

  /** The name given by the last `event:` line of a block. */
  function LastName(block: seq<LineKind>): Option<string> {
    if block == [] then None
    else if block[|block| - 1].EventName? then Some(block[|block| - 1].name)
    else LastName(block[..|block| - 1])
  }

  /** The payloads of a block's `data:` lines, in order. */
  function DataParts(block: seq<LineKind>): seq<string> {
    if block == [] then []
    else DataParts(block[..|block| - 1]) + (if block[|block| - 1].DataPart? then [block[|block| - 1].part] else [])
  }

  /** `"\n".join(parts)`. */
  function JoinLines(parts: seq<string>): string
    requires parts != []
  {
    if |parts| == 1 then parts[0] else parts[0] + "\n" + JoinLines(parts[1..])
  }

  /** The accumulator a block leaves behind. */
  function BlockState(block: seq<LineKind>): Accumulator {
    Accumulator(LastName(block), if DataParts(block) == [] then None else Some(JoinLines(DataParts(block))))
  }

  /** A block yields a frame iff it holds a `data:` line. */
  function BlockFrame(block: seq<LineKind>): Option<Frame> {
    if DataParts(block) == [] then None else Some(Frame(LastName(block), JoinLines(DataParts(block))))
  }

  function FramesOf(blocks: seq<seq<LineKind>>): seq<Frame> {
    if blocks == [] then []
    else FramesOf(blocks[..|blocks| - 1]) + Dispatched(BlockFrame(blocks[|blocks| - 1]))
  }

  function ReferenceFrames(ks: seq<LineKind>): seq<Frame> {
    FramesOf(Blocks(ks))
  }

  lemma {:induction false} JoinLinesSnoc(parts: seq<string>, p: string)
    requires parts != []
    ensures JoinLines(parts + [p]) == JoinLines(parts) + "\n" + p
    decreases |parts|
  {
    if |parts| == 1 {
      assert (parts + [p])[1..] == [p];
    } else {
      assert (parts + [p])[1..] == parts[1..] + [p];
      JoinLinesSnoc(parts[1..], p);
    }
  }

  /** The accumulator after any prefix is the state of its open block, and the frames so far are those of its complete blocks. */
  lemma {:induction false} ScanMatchesReference(ks: seq<LineKind>)
    ensures Scan(ks) == (BlockState(OpenBlock(ks)), ReferenceFrames(ks))
    decreases |ks|
  {
    if ks != [] {
      var init, x := ks[..|ks| - 1], ks[|ks| - 1];
      ScanMatchesReference(init);
      assert ks == init + [x];
      ScanSnoc(init, x);
      if x.Blank? {
        ReferenceBlank(init, x);
      } else {
        ReferenceNonBlank(init, x);
        assert Scan(init).1 + [] == Scan(init).1;
      }
    }
  }

  /** A blank line closes the open block, which yields its frame, if any, and starts an empty one. */
  lemma ReferenceBlank(init: seq<LineKind>, x: LineKind)
    requires x.Blank?
    ensures var ob := OpenBlock(init);
      && BlockState(OpenBlock(init + [x])) == Next(BlockState(ob), x).0
      && ReferenceFrames(init + [x]) == ReferenceFrames(init) + Dispatched(Next(BlockState(ob), x).1)
  {
    var ks := init + [x];
    assert ks[..|ks| - 1] == init;
    assert Blocks(ks) == Blocks(init) + [OpenBlock(init)];
    assert Blocks(ks)[..|Blocks(ks)| - 1] == Blocks(init);
  }

  /** Any other line joins the open block, and the accumulator steps exactly as the block's state does. */
  lemma ReferenceNonBlank(init: seq<LineKind>, x: LineKind)
    requires !x.Blank?
    ensures var ob := OpenBlock(init);
      && BlockState(OpenBlock(init + [x])) == Next(BlockState(ob), x).0
      && Next(BlockState(ob), x).1 == None
      && ReferenceFrames(init + [x]) == ReferenceFrames(init)
  {
    var ks := init + [x];
    assert ks[..|ks| - 1] == init;
    var ob := OpenBlock(init);
    assert Blocks(ks) == Blocks(init) && OpenBlock(ks) == ob + [x];
    BlockSnoc(ob, x);
    if x.DataPart? {
      if DataParts(ob) == [] {
        assert DataParts(ob + [x]) == [x.part];
      } else {
        JoinLinesSnoc(DataParts(ob), x.part);
      }
    } else {
      assert DataParts(ob + [x]) == DataParts(ob);
    }
  }

  lemma BlockSnoc(block: seq<LineKind>, x: LineKind)
    ensures LastName(block + [x]) == if x.EventName? then Some(x.name) else LastName(block)
    ensures DataParts(block + [x]) == DataParts(block) + (if x.DataPart? then [x.part] else [])
  {
    assert (block + [x])[..|block|] == block;
  }

  /** Joined data splits back into exactly its parts when no part holds a line break. */
  lemma {:induction false} JoinLinesSplit(parts: seq<string>)
    requires parts != []
    requires forall i :: 0 <= i < |parts| ==> '\n' !in parts[i]
    ensures Text.Split(JoinLines(parts), '\n') == parts
    decreases |parts|
  {
    if |parts| > 1 {
      var s := JoinLines(parts);
      JoinLinesSplit(parts[1..]);
      assert s == parts[0] + "\n" + JoinLines(parts[1..]);
      assert '\n' in s by { assert s[|parts[0]|] == '\n'; }
      var k := Text.IndexOf(s, '\n');
      assert k == |parts[0]|;
      assert s[..k] == parts[0];
      assert s[k + 1..] == JoinLines(parts[1..]);
    }
  }

  /** Scanning continues from the accumulator the earlier lines reached, whatever lines produced it. */
  lemma ScanSplit(a: seq<LineKind>, b: seq<LineKind>)
    ensures var rest := ScanFrom(Scan(a).0, b);
      Scan(a + b) == (rest.0, Scan(a).1 + rest.1)
  {
    ScanFromSplit(Empty, a, b);
  }

  /** A keepalive or unrecognised line anywhere in the stream changes nothing that is dispatched. */
  lemma TransparentLine(a: seq<LineKind>, x: LineKind, b: seq<LineKind>)
    requires x.Keepalive? || x.Ignored?
    ensures Scan(a + [x] + b) == Scan(a + b)
  {
    ScanSnoc(a, x);
    assert Scan(a).1 + [] == Scan(a).1;
    ScanSplit(a + [x], b);
    ScanSplit(a, b);
  }

  /** After a blank line, earlier lines no longer influence the frames still to come. */
  lemma BlankLineResets(a: seq<LineKind>, x: LineKind, b: seq<LineKind>)
    requires x.Blank?
    ensures Scan(a + [x] + b).0 == Scan(b).0
    ensures Scan(a + [x] + b).1 == Scan(a + [x]).1 + Scan(b).1
  {
    ScanSnoc(a, x);
    ScanSplit(a + [x], b);
    ScanSplit([], b);
    assert [] + b == b;
  }
}
