/**
 * `JsonlFollower`: tails one append-only JSON-lines transcript. Attaching
 * replays the last `SEED_BYTES` of the file as seed records and moves to
 * its end; each poll reads what was appended since, emits the completed
 * lines and keeps the unterminated remainder for the next poll. A file
 * that shrank is read again from the start.
 *
 * The file is seen through a `FileView` per call (one character per byte),
 * and the JSON reader is the parameter `parse`.
 */
module Follower {
  import opened Base
  import opened Json
  import opened Text

  /** How much of the end of a file is replayed when attaching. */
  const SeedBytes: nat := 256 * 1024

  /** What `stat` and a read of the followed path show at one call. */
  datatype FileView = Missing | Present(bytes: string, readable: bool)

  /** One parsed line, marked when it comes from the replay at attach time. */
  datatype Record = Record(obj: Json, seed: bool)

  const ByteOrderMark: char := '\U{FEFF}'

  /** `line.replace('\u{feff}', "")`: every byte order mark dropped, everything else kept. */
  function RemoveBom(line: string): (r: string)
    ensures ByteOrderMark !in r
    ensures |r| <= |line|
    ensures forall c :: c in r <==> c in line && c != ByteOrderMark
    ensures ByteOrderMark !in line ==> r == line
  {
    if line == [] then []
    else (if line[0] == ByteOrderMark then [] else [line[0]]) + RemoveBom(line[1..])
  }

  /** One step of the removal: the first character is kept unless it is the mark. */
  lemma RemoveBomCons(a: string, b: string)
    requires a != []
    ensures RemoveBom(a + b) == (if a[0] == ByteOrderMark then [] else [a[0]]) + RemoveBom(a[1..] + b)
  {
    assert (a + b)[0] == a[0] && (a + b)[1..] == a[1..] + b;
  }

  /** Removing the marks from two pieces of a line removes them from the whole, keeping the order. */
  lemma {:induction false} RemoveBomAppend(a: string, b: string)
    ensures RemoveBom(a + b) == RemoveBom(a) + RemoveBom(b)
    decreases |a|
  {
    if a == [] {
      assert a + b == b;
    } else {
      RemoveBomCons(a, b);
      RemoveBomAppend(a[1..], b);
      ConcatRegroup(RemoveBom(a + b), RemoveBom(a), if a[0] == ByteOrderMark then [] else [a[0]], RemoveBom(a[1..]), RemoveBom(b));
    }
  }

  /** `safe_json_parse`. */
  function SafeParse(line: string, parse: string -> Option<Json>): Option<Json> {
    parse(RemoveBom(line))
  }

  /** The records for a run of lines: each non-empty line that parses, in order. */
  function Parsed(lines: seq<string>, parse: string -> Option<Json>, seed: bool): (rs: seq<Record>)
    ensures |rs| <= |lines|
    ensures forall i :: 0 <= i < |rs| ==> rs[i].seed == seed
  {
    if lines == [] then []
    else
      var init := Parsed(lines[..|lines| - 1], parse, seed);
      var line := lines[|lines| - 1];
      if line != [] && SafeParse(line, parse).Some? then init + [Record(SafeParse(line, parse).value, seed)]
      else init
  }

  /** Parsing two runs of lines gives the records of each, in order. */
  lemma {:induction false} ParsedAppend(xs: seq<string>, ys: seq<string>, parse: string -> Option<Json>, seed: bool)
    ensures Parsed(xs + ys, parse, seed) == Parsed(xs, parse, seed) + Parsed(ys, parse, seed)
    decreases |ys|
  {
    if ys == [] {
      assert xs + ys == xs;
    } else {
      var init, line := ys[..|ys| - 1], ys[|ys| - 1];
      var both := xs + ys;
      assert both[..|both| - 1] == xs + init;
      assert both[|both| - 1] == line;
      ParsedAppend(xs, init, parse, seed);
      var a, b := Parsed(xs, parse, seed), Parsed(init, parse, seed);
      if line != [] && SafeParse(line, parse).Some? {
        var r := Record(SafeParse(line, parse).value, seed);
        assert Parsed(both, parse, seed) == (a + b) + [r];
        assert (a + b) + [r] == a + (b + [r]);
      }
    }
  }

  /** Only lines that hold something are offered to the parser. */
  lemma {:induction false} ParsedSkipsEmptyLines(lines: seq<string>, parse: string -> Option<Json>, seed: bool)
    requires forall i :: 0 <= i < |lines| ==> lines[i] == []
    ensures Parsed(lines, parse, seed) == []
  {
    if lines != [] {
      ParsedSkipsEmptyLines(lines[..|lines| - 1], parse, seed);
    }
  }

  /** The emit loop of `attach` and `poll`. */
  method EmitLines(lines: seq<string>, parse: string -> Option<Json>, seed: bool) returns (records: seq<Record>)
    ensures records == Parsed(lines, parse, seed)
  {
    records := [];
    for k := 0 to |lines|
      invariant records == Parsed(lines[..k], parse, seed)
    {
      assert lines[..k + 1][..k] == lines[..k];
      var line := lines[k];
      if line != [] {
        var obj := SafeParse(line, parse);
        if obj.Some? {
          records := records + [Record(obj.value, seed)];
        }
      }
    }
    assert lines[..|lines|] == lines;
  }

  function AllButLast<T>(s: seq<T>): seq<T>
    requires |s| > 0
  {
    s[..|s| - 1]
  }

  /** The follower's fields. */
  datatype FollowerState = FollowerState(filePath: Option<string>, position: nat, partial: string)

  /** The lines replayed at attach time: the last `seedBytes` bytes split on line feeds, without the first piece when the window starts inside the file. */
  function SeedLines(bytes: string, seedBytes: nat): seq<string> {
    var start := if |bytes| > seedBytes then |bytes| - seedBytes else 0;
    var pieces := Split(bytes[start..], '\n');
    if start > 0 then pieces[1..] else pieces
  }

  /** `attach`: on a file that exists, follow it from its end, replaying its tail as seed records. */
  function AttachStep(s: FollowerState, path: string, file: FileView, seedBytes: nat, parse: string -> Option<Json>)
    : (o: (FollowerState, seq<Record>))
    ensures file.Missing? ==> o == (s, [])
    ensures !file.Missing? ==> o.0 == FollowerState(Some(path), |file.bytes|, "")
    ensures forall i :: 0 <= i < |o.1| ==> o.1[i].seed
  {
    if file.Missing? then (s, [])
    else
      var s1 := FollowerState(Some(path), |file.bytes|, "");
      if !file.readable then (s1, [])
      else (s1, Parsed(SeedLines(file.bytes, seedBytes), parse, true))
  }

  /** The state a poll reads from: the old one, or the start of a file that shrank. */
  function Rewound(s: FollowerState, size: nat): FollowerState {
    if size < s.position then s.(position := 0, partial := "") else s
  }

  /** `poll`: read what was appended, emit the completed lines, keep the unterminated rest. */
  function PollStep(s: FollowerState, file: FileView, parse: string -> Option<Json>): (o: (FollowerState, seq<Record>))
    ensures o.0.filePath == s.filePath
    ensures forall i :: 0 <= i < |o.1| ==> !o.1[i].seed
    ensures o.1 != [] ==> file.Present? && file.readable && o.0.position == |file.bytes|
  {
    if s.filePath.None? || file.Missing? then (s, [])
    else
      var s1 := Rewound(s, |file.bytes|);
      if |file.bytes| == s1.position || !file.readable then (s1, [])
      else
        var pieces := Split(s1.partial + file.bytes[s1.position..], '\n');
        (s1.(position := |file.bytes|, partial := Last(pieces)), Parsed(AllButLast(pieces), parse, false))
  }

  class JsonlFollower {
    const seedBytes: nat
    var filePath: Option<string>
    var position: nat
    var partial: string

    function State(): FollowerState
      reads this
    {
      FollowerState(filePath, position, partial)
    }

    /** `JsonlFollower::new`. */
    constructor(seedBytes: nat)
      ensures this.seedBytes == seedBytes
      ensures State() == FollowerState(None, 0, "")
    {
      this.seedBytes := seedBytes;
      filePath := None;
      position := 0;
      partial := "";
    }

    /** `attach`. */
    method Attach(path: string, file: FileView, parse: string -> Option<Json>) returns (records: seq<Record>)
      modifies this
      ensures (State(), records) == AttachStep(old(State()), path, file, seedBytes, parse)
    {
      records := [];
      if file.Missing? {
        return;
      }
      var size := |file.bytes|;
      filePath := Some(path);
      position := size;
      partial := "";
      var start := if size > seedBytes then size - seedBytes else 0;
      if file.readable {
        var lines := Split(file.bytes[start..], '\n');
        if start > 0 {
          lines := lines[1..];
        }
        records := EmitLines(lines, parse, true);
      }
    }

    /** `poll`. */
    method Poll(file: FileView, parse: string -> Option<Json>) returns (records: seq<Record>)
      modifies this
      ensures (State(), records) == PollStep(old(State()), file, parse)
    {
      records := [];
      if filePath.None? || file.Missing? {
        return;
      }
      var size := |file.bytes|;
      if size < position {
        position := 0;
        partial := "";
      }
      if size == position || !file.readable {
        return;
      }
      var chunk := file.bytes[position..];
      position := size;
      var lines := Split(partial + chunk, '\n');
      partial := lines[|lines| - 1];
      lines := lines[..|lines| - 1];
      records := EmitLines(lines, parse, false);
    }

    /** `set_position`. */
    method SetPosition(p: nat)
      modifies this
      ensures State() == old(State()).(position := p)
    {
      position := p;
    }
  }

  /* ---------------------------------------------------------------- */
  /* Properties of polling                                            */
  /* ---------------------------------------------------------------- */

  /** Whether a poll of `file` from `s` reads new text. */
  predicate Reads(s: FollowerState, file: FileView) {
    s.filePath.Some? && file.Present? && file.readable && |file.bytes| != Rewound(s, |file.bytes|).position
  }

  /** A poll that does not read leaves the file position and the kept text alone, apart from the rewind after a shrink, and emits nothing. */
  lemma PollWithoutReadingEmitsNothing(s: FollowerState, file: FileView, parse: string -> Option<Json>)
    requires !Reads(s, file)
    ensures PollStep(s, file, parse).1 == []
    ensures PollStep(s, file, parse).0 == if s.filePath.Some? && file.Present? then Rewound(s, |file.bytes|) else s
  {
  }

  /**
   * No text is lost or invented: after a reading poll, the completed lines
   * and the kept remainder, joined by line feeds, are exactly the old
   * remainder followed by the appended bytes; none of them holds a line
   * feed; the records are those lines parsed; and the position is the size.
   */
  lemma {:induction false} PollKeepsEveryByte(s: FollowerState, file: FileView, parse: string -> Option<Json>)
    requires Reads(s, file)
    ensures var s1 := Rewound(s, |file.bytes|);
            var (s2, records) := PollStep(s, file, parse);
            s2.position == |file.bytes| && s2.filePath == s.filePath && '\n' !in s2.partial
            && exists lines: seq<string> ::
                 && Join(lines + [s2.partial], "\n") == s1.partial + file.bytes[s1.position..]
                 && (forall i :: 0 <= i < |lines| ==> '\n' !in lines[i])
                 && records == Parsed(lines, parse, false)
  {
    var s1 := Rewound(s, |file.bytes|);
    var text := s1.partial + file.bytes[s1.position..];
    var pieces := Split(text, '\n');
    var lines := AllButLast(pieces);
    var (s2, records) := PollStep(s, file, parse);
    assert s2 == s1.(position := |file.bytes|, partial := Last(pieces));
    assert records == Parsed(lines, parse, false);
    PiecesRejoin(text);
    assert Join(lines + [s2.partial], "\n") == text;
  }

  /** The completed lines and the last piece of a split rejoin to the text, and none holds a line feed. */
  lemma PiecesRejoin(text: string)
    ensures var pieces := Split(text, '\n');
            && Join(AllButLast(pieces) + [Last(pieces)], "\n") == text
            && '\n' !in Last(pieces)
            && forall i :: 0 <= i < |AllButLast(pieces)| ==> '\n' !in AllButLast(pieces)[i]
  {
    var pieces := Split(text, '\n');
    SplitJoin(text, '\n');
    assert pieces == AllButLast(pieces) + [Last(pieces)];
  }

  lemma {:induction false} JoinSnoc(xs: seq<string>, x: string, sep: string)
    requires |xs| > 0
    ensures Join(xs + [x], sep) == Join(xs, sep) + sep + x
    decreases |xs|
  {
    if |xs| > 1 {
      JoinSnoc(xs[1..], x, sep);
      assert (xs + [x])[1..] == xs[1..] + [x];
    } else {
      assert (xs + [x])[1..] == [x];
    }
  }

  /** Splitting text that grew by `b` splits the old text's completed lines and then its last piece grown by `b`. */
  lemma SplitGrown(text: string, b: string)
    ensures var pieces := Split(text, '\n');
            Split(text + b, '\n') == AllButLast(pieces) + Split(Last(pieces) + b, '\n')
  {
    var pieces := Split(text, '\n');
    var init := AllButLast(pieces);
    SplitJoin(text, '\n');
    assert pieces == init + [Last(pieces)];
    if init == [] {
      assert Join(pieces, "\n") == Last(pieces);
    } else {
      JoinSnoc(init, Last(pieces), "\n");
      assert text + b == Join(init, "\n") + ['\n'] + (Last(pieces) + b);
      SplitConcat(Join(init, "\n"), Last(pieces) + b, '\n');
      JoinSplit(init, '\n');
    }
  }

  /**
   * Lines come out the same however the appends are spread over polls:
   * polling after `a` and again after `b` emits the records and reaches
   * the state of a single poll after both.
   */
  lemma PollTwiceEqualsOnce(s: FollowerState, bytes: string, a: string, b: string, parse: string -> Option<Json>)
    requires s.filePath.Some? && s.position == |bytes| && a != [] && b != []
    ensures var (s1, r1) := PollStep(s, Present(bytes + a, true), parse);
            var (s2, r2) := PollStep(s1, Present(bytes + a + b, true), parse);
            var (t, r) := PollStep(s, Present(bytes + a + b, true), parse);
            s2 == t && r1 + r2 == r
  {
    var p := s.partial;
    var pieces := Split(p + a, '\n');
    var grown := Split(Last(pieces) + b, '\n');
    var s1 := s.(position := |bytes + a|, partial := Last(pieces));
    assert (bytes + a)[|bytes|..] == a;
    assert PollStep(s, Present(bytes + a, true), parse) == (s1, Parsed(AllButLast(pieces), parse, false));
    assert (bytes + a + b)[|bytes + a|..] == b;
    assert PollStep(s1, Present(bytes + a + b, true), parse)
        == (s1.(position := |bytes + a + b|, partial := Last(grown)), Parsed(AllButLast(grown), parse, false));
    assert (bytes + a + b)[|bytes|..] == a + b;
    assert p + (a + b) == p + a + b;
    SplitGrown(p + a, b);
    var whole := AllButLast(pieces) + grown;
    assert PollStep(s, Present(bytes + a + b, true), parse)
        == (s.(position := |bytes + a + b|, partial := Last(whole)), Parsed(AllButLast(whole), parse, false));
    assert AllButLast(whole) == AllButLast(pieces) + AllButLast(grown);
    ParsedAppend(AllButLast(pieces), AllButLast(grown), parse, false);
  }

  /** Attaching follows the file from its end with nothing kept, whether or not its last line is complete, and every replayed record is marked as seed. */
  lemma AttachFollowsFromEnd(s: FollowerState, path: string, bytes: string, seedBytes: nat, parse: string -> Option<Json>)
    ensures var (s1, records) := AttachStep(s, path, Present(bytes, true), seedBytes, parse);
            s1 == FollowerState(Some(path), |bytes|, "")
            && (forall i :: 0 <= i < |records| ==> records[i].seed)
            && PollStep(s1, Present(bytes, true), parse) == (s1, [])
  {
  }

  /** A follower attached afresh replays only seed records. */
  lemma AttachRecordsAreSeeds(path: string, file: FileView, parse: string -> Option<Json>)
    ensures var records := AttachStep(FollowerState(None, 0, ""), path, file, SeedBytes, parse).1;
            forall i :: 0 <= i < |records| ==> records[i].seed
  {
  }

  /** The replay starts on a line boundary: its lines, joined, are the end of the file from just after a line feed (or from its start). */
  lemma SeedStartsAtLineBoundary(bytes: string, seedBytes: nat)
    ensures SeedLines(bytes, seedBytes) == []
            || exists k :: 0 <= k <= |bytes| && (k == 0 || bytes[k - 1] == '\n')
                           && Join(SeedLines(bytes, seedBytes), "\n") == bytes[k..]
  {
    var start := if |bytes| > seedBytes then |bytes| - seedBytes else 0;
    var window := bytes[start..];
    var pieces := Split(window, '\n');
    SplitJoin(window, '\n');
    if start == 0 {
      assert bytes[0..] == window;
    } else if |pieces| > 1 {
      var k := start + |pieces[0]| + 1;
      assert Join(pieces, "\n") == pieces[0] + "\n" + Join(pieces[1..], "\n");
      assert window[|pieces[0]|] == '\n';
      assert bytes[k - 1] == window[|pieces[0]|];
      assert bytes[k..] == window[|pieces[0]| + 1..];
    }
  }

  /** A file that shrank is read again from its first byte, forgetting the kept remainder. */
  lemma PollAfterShrinkRestarts(s: FollowerState, bytes: string, parse: string -> Option<Json>)
    requires s.filePath.Some? && |bytes| < s.position && |bytes| > 0
    ensures PollStep(s, Present(bytes, true), parse)
            == (s.(position := |bytes|, partial := Last(Split(bytes, '\n'))), Parsed(AllButLast(Split(bytes, '\n')), parse, false))
  {
    assert "" + bytes[0..] == bytes;
  }
}
