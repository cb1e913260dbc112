/** Splitting at ASCII newlines: however the input is cut into appends and however eagerly chunks are
    pulled, the lines that come out are the lines of the whole input. */
module LineSplitter {
  import opened Common
  import S = StreamSplitter

  type byte = S.byte

  function Newline(): byte { 10 }

  /** Searches backward, to return as many complete lines as possible. */
  function LineInput(data: seq<byte>): (r: Option<nat>)
    ensures r.None? <==> Newline() !in data
    ensures r.Some? ==> 0 < r.value <= |data| && data[r.value - 1] == Newline() && Newline() !in data[r.value..]
  {
    if data == [] then None
    else if data[|data| - 1] == Newline() then Some(|data|)
    else
      var r := LineInput(data[..|data| - 1]);
      TakeDrop(data, |data| - 1);
      assert r.Some? ==> data[r.value..] == data[..|data| - 1][r.value..] + [data[|data| - 1]];
      r
  }

  /** The lines of a text, each with its newline except perhaps the last. */
  function Lines(s: seq<byte>): seq<seq<byte>>
  {
    if s == [] then []
    else if s[0] == Newline() then [[s[0]]] + Lines(s[1..])
    else
      var rest := Lines(s[1..]);
      if rest == [] then [[s[0]]] else [[s[0]] + rest[0]] + rest[1..]
  }

  function LinesOf(chunks: seq<seq<byte>>): seq<seq<byte>>
  {
    if chunks == [] then [] else LinesOf(chunks[..|chunks| - 1]) + Lines(chunks[|chunks| - 1])
  }

  predicate EndsLine(s: seq<byte>)
  {
    s == [] || s[|s| - 1] == Newline()
  }

  lemma {:induction false} LinesAppend(a: seq<byte>, b: seq<byte>)
    requires EndsLine(a)
    ensures Lines(a + b) == Lines(a) + Lines(b)
    ensures a != [] ==> Lines(a) != []
  {
    if a == [] {
      assert a + b == b;
    } else {
      assert (a + b)[0] == a[0] && (a + b)[1..] == a[1..] + b;
      LinesAppend(a[1..], b);
      var l, m := Lines(a[1..]), Lines(b);
      if a[0] == Newline() {
        Assoc([[a[0]]], l, m);
      } else {
        assert (l + m)[0] == l[0] && (l + m)[1..] == l[1..] + m;
        Assoc([[a[0]] + l[0]], l[1..], m);
      }
    }
  }

  /** `Lines` loses nothing. */
  lemma {:induction false} LinesConcat(s: seq<byte>)
    ensures Concat(Lines(s)) == s
  {
    if s != [] {
      LinesConcat(s[1..]);
      var r := Lines(s[1..]);
      assert s == [s[0]] + s[1..];
      if s[0] == Newline() || r == [] {
        ConcatCons([s[0]], r);
        assert r == [] ==> [[s[0]]] + r == [[s[0]]];
      } else {
        ConcatCons([s[0]] + r[0], r[1..]);
        ConcatCons(r[0], r[1..]);
        assert r == [r[0]] + r[1..];
        Assoc([s[0]], r[0], Concat(r[1..]));
      }
    }
  }

  predicate IsLine(l: seq<byte>)
  {
    l != [] && Newline() !in l[..|l| - 1]
  }

  /** A newline occurs only at the end of a line, and every line but the last has one. */
  lemma {:induction false} LinesShape(s: seq<byte>)
    ensures forall i | 0 <= i < |Lines(s)| :: IsLine(Lines(s)[i])
    ensures forall i | 0 <= i < |Lines(s)| - 1 :: EndsLine(Lines(s)[i])
  {
    if s != [] {
      LinesShape(s[1..]);
      var r, l := Lines(s[1..]), Lines(s);
      if s[0] != Newline() && r != [] {
        assert l[0][..|r[0]|] == [s[0]] + r[0][..|r[0]| - 1];
        assert forall i | 1 <= i < |l| :: l[i] == r[i];
      } else {
        assert forall i | 1 <= i < |l| :: l[i] == r[i - 1];
      }
    }
  }

  lemma {:induction false} ConcatCons(a: seq<byte>, ss: seq<seq<byte>>)
    ensures Concat([a] + ss) == a + Concat(ss)
  {
    if ss == [] {
      assert [a] + ss == [a] && [a][..0] == [];
    } else {
      var init := ss[..|ss| - 1];
      assert ([a] + ss)[..|ss|] == [a] + init;
      ConcatCons(a, init);
      Assoc(a, Concat(init), ss[|ss| - 1]);
    }
  }

  // ---------------------------------------------------------------- sessions

  datatype Op = Supply(data: seq<byte>) | Pull

  function SuppliedBy(ops: seq<Op>): seq<byte>
  {
    if ops == [] then []
    else SuppliedBy(ops[..|ops| - 1]) + if ops[|ops| - 1].Supply? then ops[|ops| - 1].data else []
  }

  ghost predicate SplitsLines(s: S.StreamSplitter)
  {
    forall past, data :: s.split(past, data) == LineInput(data)
  }

  /** Every chunk so far ends a line, so the lines of the chunks are the lines of the text. */
  ghost predicate ChunkLines(chunks: seq<seq<byte>>, text: seq<byte>)
  {
    && text == Concat(chunks) && EndsLine(text)
    && (forall i | 0 <= i < |chunks| :: chunks[i] != [] && EndsLine(chunks[i]))
    && LinesOf(chunks) == Lines(text)
  }

  lemma ChunkLinesSnoc(chunks: seq<seq<byte>>, text: seq<byte>, c: seq<byte>)
    requires ChunkLines(chunks, text)
    ensures Concat(chunks + [c]) == text + c && LinesOf(chunks + [c]) == Lines(text + c)
    ensures c != [] && EndsLine(c) ==> ChunkLines(chunks + [c], text + c)
  {
    assert (chunks + [c])[..|chunks|] == chunks;
    ConcatSnoc(chunks, c);
    LinesAppend(text, c);
  }

  ghost predicate WholeLines(s: S.StreamSplitter, chunks: seq<seq<byte>>)
    reads s
  {
    && s.Valid() && SplitsLines(s)
    && ChunkLines(chunks, s.returned)
    && Newline() !in s.Live()[..s.Seen()]
  }

  /** What `next(false)` does with a line splitter that has seen no newline among the live bytes. */
  lemma NextLines(live: seq<byte>, seen: nat, chunk: Option<seq<byte>>, live': seq<byte>, seen': nat)
    requires seen <= |live| && Newline() !in live[..seen]
    requires S.Chunked(LineInput(live[seen..]), false, live, seen, chunk, live', seen')
    ensures chunk.Some? ==> chunk.value != [] && EndsLine(chunk.value) && |live'| < |live| && seen' == 0
    ensures chunk.None? ==> Newline() !in live && live' == live
  {
    TakeDrop(live, seen);
  }

  /** One `next(false)`; when it finds nothing, what is live has no newline at all. */
  method PullChunk(s: S.StreamSplitter, chunks: seq<seq<byte>>) returns (found: bool, chunks': seq<seq<byte>>)
    requires WholeLines(s, chunks)
    modifies s`fed, s`fragmentStart, s`feeds, s`returned, s`accepted
    ensures WholeLines(s, chunks')
    ensures found ==> |s.Live()| < |old(s.Live())|
    ensures !found ==> chunks' == chunks && s.Live() == old(s.Live()) && Newline() !in s.Live()
  {
    ghost var live, seen, text := s.Live(), s.Seen(), s.returned;
    var chunk := s.Next(false);
    NextLines(live, seen, chunk, s.Live(), s.Seen());
    found, chunks' := chunk.Some?, chunks;
    if found {
      ChunkLinesSnoc(chunks, text, chunk.value);
      chunks' := chunks + [chunk.value];
    } else {
      assert text + [] == text;
    }
  }

  /** Pulls until nothing is found: what stays behind is the text after the last newline supplied. */
  method Drain(s: S.StreamSplitter, chunks: seq<seq<byte>>) returns (chunks': seq<seq<byte>>)
    requires WholeLines(s, chunks)
    modifies s`fed, s`fragmentStart, s`feeds, s`returned, s`accepted
    ensures WholeLines(s, chunks') && Newline() !in s.Live()
  {
    chunks' := chunks;
    var found := true;
    while found
      invariant WholeLines(s, chunks')
      invariant !found ==> Newline() !in s.Live()
      decreases found, |s.Live()|
    {
      found, chunks' := PullChunk(s, chunks');
    }
  }

  /** One `next(true)` when no complete line is left: returns all that is left, if anything. */
  method PullLast(s: S.StreamSplitter) returns (chunk: Option<seq<byte>>)
    requires s.Valid() && SplitsLines(s) && Newline() !in s.Live()
    modifies s`fed, s`fragmentStart, s`feeds, s`returned, s`accepted
    ensures s.Valid() && s.Live() == [] && s.returned == s.supplied
    ensures if old(s.Live()) == [] then chunk == None && s.returned == old(s.returned)
            else chunk == Some(old(s.Live())) && s.returned == old(s.returned) + chunk.value
  {
    ghost var live := s.Live();
    assert forall b | b in live[s.Seen()..] :: b in live;
    assert s.returned + [] == s.returned;
    chunk := s.Next(true);
    assert s.returned + [] == s.returned;
  }

  /** Pulls with `eoi` until nothing is found, which leaves nothing behind. */
  method Finish(s: S.StreamSplitter, chunks: seq<seq<byte>>) returns (chunks': seq<seq<byte>>)
    requires WholeLines(s, chunks)
    modifies s`fed, s`fragmentStart, s`feeds, s`returned, s`accepted
    ensures s.Valid() && s.Live() == [] && s.supplied == Concat(chunks')
    ensures LinesOf(chunks') == Lines(s.supplied)
    ensures forall i | 0 <= i < |chunks'| - 1 :: chunks'[i] != [] && EndsLine(chunks'[i])
  {
    chunks' := Drain(s, chunks);
    ghost var text := s.returned;
    var chunk := PullLast(s);
    if chunk.Some? {
      ChunkLinesSnoc(chunks', text, chunk.value);
      chunks' := chunks' + [chunk.value];
      chunk := PullLast(s);
      assert chunk == None;
    }
  }

  /** A whole session: any interleaving of appends and pulls, then the end of the input. Its lines
      depend only on the bytes supplied. */
  method Session(ops: seq<Op>) returns (chunks: seq<seq<byte>>)
    ensures Concat(chunks) == SuppliedBy(ops)
    ensures LinesOf(chunks) == Lines(SuppliedBy(ops))
    ensures forall i | 0 <= i < |chunks| - 1 :: chunks[i] != [] && EndsLine(chunks[i])
  {
    var s := new S.StreamSplitter((past, data) => LineInput(data));
    chunks := [];
    for i := 0 to |ops|
      invariant fresh(s) && WholeLines(s, chunks)
      invariant s.supplied == SuppliedBy(ops[..i])
    {
      assert ops[..i + 1][..i] == ops[..i];
      chunks := Perform(s, ops[i], chunks);
    }
    assert ops[..|ops|] == ops;
    chunks := Finish(s, chunks);
  }

  method Perform(s: S.StreamSplitter, op: Op, chunks: seq<seq<byte>>) returns (chunks': seq<seq<byte>>)
    requires WholeLines(s, chunks)
    modifies s
    ensures WholeLines(s, chunks')
    ensures s.supplied == old(s.supplied) + match op case Supply(data) => data case Pull => []
  {
    chunks' := chunks;
    match op {
      case Supply(data) =>
        ghost var live, seen := s.Live(), s.Seen();
        assert (live + data)[..seen] == live[..seen];
        s.Append(data);
      case Pull =>
        var found;
        found, chunks' := PullChunk(s, chunks);
        assert s.supplied + [] == s.supplied;
    }
  }
}
