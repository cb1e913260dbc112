/** Breaking a byte stream into chunks of whole records. `StreamSplitter` keeps a sliding buffer with
    four indices; what it promises is a plain stream: bytes in, the same bytes out in chunks. */
module StreamSplitter {
  import opened Common

  type byte = bv8

  datatype IoError = IoError

  /** One presentation of data to a splitter, and its answer. */
  datatype Feed = Feed(data: seq<byte>, answer: Option<nat>)
  {
    /** The bytes that it uses up: those before the boundary, or all of them. */
    function Accepted(): seq<byte>
    {
      if answer.Some? && answer.value <= |data| then data[..answer.value] else data
    }
  }

  /** A splitter is a function of what it has been shown since it was last cleared. */
  type Splitter = (seq<Feed>, seq<byte>) -> Option<nat>

  ghost predicate IsSplitter(split: Splitter)
  {
    forall past, data :: split(past, data).Some? ==> split(past, data).value <= |data|
  }

  /** `copy_within(from..to, 0)`. */
  function CopyToFront(b: seq<byte>, from: nat, to: nat): (r: seq<byte>)
    requires from <= to <= |b|
    ensures |r| == |b| && r[..to - from] == b[from..to]
  {
    b[from..to] + b[to - from..]
  }

  function Resize(b: seq<byte>, n: nat): (r: seq<byte>)
    ensures |r| == n
    ensures n <= |b| ==> r == b[..n]
    ensures n >= |b| ==> r[..|b|] == b
  {
    if n <= |b| then b[..n] else b + seq(n - |b|, _ => 0)
  }

  /** The plain stream: what was returned, then what is live, is what was supplied; the splitter has
      accepted all that was returned and the first `seen` live bytes, once and in order. */
  ghost predicate Stream(
      returned: seq<byte>, live: seq<byte>, seen: nat, supplied: seq<byte>, accepted: seq<byte>)
  {
    && seen <= |live|
    && supplied == returned + live
    && accepted == returned + live[..seen]
  }

  lemma BoundaryKeeps(
      returned: seq<byte>, live: seq<byte>, seen: nat, supplied: seq<byte>, accepted: seq<byte>, n: nat)
    requires Stream(returned, live, seen, supplied, accepted) && seen + n <= |live|
    ensures Stream(returned + live[..seen + n], live[seen + n..], 0, supplied,
                   accepted + Feed(live[seen..], Some(n)).Accepted())
  {
    var k := seen + n;
    TakeDrop(live, k);
    Assoc(returned, live[..k], live[k..]);
    TakeMore(live, seen, n);
    Assoc(returned, live[..seen], live[seen..][..n]);
    assert live[k..][..0] == [];
  }

  lemma NoBoundaryKeeps(
      returned: seq<byte>, live: seq<byte>, seen: nat, supplied: seq<byte>, accepted: seq<byte>)
    requires Stream(returned, live, seen, supplied, accepted)
    ensures Stream(returned, live, |live|, supplied, accepted + Feed(live[seen..], None).Accepted())
    ensures Stream(returned + live, [], 0, supplied, accepted + Feed(live[seen..], None).Accepted())
  {
    TakeDrop(live, seen);
    Assoc(returned, live[..seen], live[seen..]);
    assert live[..|live|] == live;
    assert (returned + live) + [] == returned + live;
  }

  lemma SupplyKeeps(
      returned: seq<byte>, live: seq<byte>, seen: nat, supplied: seq<byte>, accepted: seq<byte>, data: seq<byte>)
    requires Stream(returned, live, seen, supplied, accepted)
    ensures Stream(returned, live + data, seen, supplied + data, accepted)
  {
    assert (live + data)[..seen] == live[..seen];
    Assoc(returned, live, data);
  }

  /** The effect of `next` on the live bytes, given the splitter's answer. */
  predicate Chunked(answer: Option<nat>, eoi: bool, live: seq<byte>, seen: nat,
                    chunk: Option<seq<byte>>, live': seq<byte>, seen': nat)
  {
    match answer
    case Some(n) =>
      seen + n <= |live| && chunk == Some(live[..seen + n]) && live' == live[seen + n..] && seen' == 0
    case None =>
      if eoi && live != [] then chunk == Some(live) && live' == [] && seen' == 0
      else chunk == None && live' == live && seen' == |live|
  }

  class StreamSplitter {
    const split: Splitter
    var buffer: seq<byte>
    var start: nat
    var fragmentStart: nat
    var fragmentEnd: nat
    var fed: nat
    var feeds: seq<Feed> // the splitter's state

    // The stream as the client and the splitter see it, since the last seek.
    ghost var origin: nat
    ghost var supplied: seq<byte>
    ghost var returned: seq<byte>
    ghost var accepted: seq<byte>

    ghost predicate InRange()
      reads this
    {
      fragmentStart <= fed <= fragmentEnd <= |buffer|
    }

    /** The bytes supplied but not yet returned. */
    ghost function Live(): seq<byte>
      requires InRange()
      reads this
    {
      buffer[fragmentStart..fragmentEnd]
    }

    /** How many of them the splitter has already accepted. */
    ghost function Seen(): nat
      requires InRange()
      reads this
    {
      fed - fragmentStart
    }

    ghost predicate Valid()
      reads this
    {
      && IsSplitter(split) && InRange()
      && Stream(returned, Live(), Seen(), supplied, accepted)
      && start + fragmentStart == origin + |returned|
    }

    constructor (split: Splitter)
      requires IsSplitter(split)
      ensures Valid() && this.split == split
      ensures origin == 0 && supplied == [] && returned == [] && feeds == [] && Seen() == 0
    {
      this.split := split;
      buffer, start, fragmentStart, fragmentEnd, fed, feeds := [], 0, 0, 0, 0, [];
      origin, supplied, returned, accepted := 0, [], [], [];
    }

    /** The splitter found a boundary `n` bytes into the data just shown to it. */
    method CutAt(n: nat) returns (chunk: seq<byte>)
      requires Valid() && fed + n <= fragmentEnd
      modifies this`fed, this`fragmentStart, this`returned, this`accepted
      ensures Valid() && returned == old(returned) + chunk
      ensures chunk == old(Live())[..old(Seen()) + n] && Live() == old(Live())[old(Seen()) + n..] && Seen() == 0
      ensures accepted == old(accepted) + Feed(old(Live()[Seen()..]), Some(n)).Accepted()
    {
      ghost var live, seen := Live(), Seen();
      BoundaryKeeps(returned, live, seen, supplied, accepted, n);
      Slices(buffer, fragmentStart, fed + n, fragmentEnd);
      accepted := accepted + Feed(live[seen..], Some(n)).Accepted();
      chunk := buffer[fragmentStart..fed + n];
      assert chunk == live[..seen + n];
      fed := fed + n;
      fragmentStart := fed;
      returned := returned + chunk;
      assert Live() == live[seen + n..] && Seen() == 0;
    }

    /** The splitter found no boundary in the data just shown to it. */
    method Exhaust(eoi: bool) returns (chunk: Option<seq<byte>>)
      requires Valid()
      modifies this`fed, this`fragmentStart, this`returned, this`accepted
      ensures Valid()
      ensures Chunked(None, eoi, old(Live()), old(Seen()), chunk, Live(), Seen())
      ensures returned == old(returned) + if chunk.Some? then chunk.value else []
      ensures accepted == old(accepted) + Feed(old(Live()[Seen()..]), None).Accepted()
    {
      ghost var live, seen := Live(), Seen();
      NoBoundaryKeeps(returned, live, seen, supplied, accepted);
      accepted := accepted + Feed(live[seen..], None).Accepted();
      fed := fragmentEnd;
      chunk := None;
      if eoi && fragmentStart < fragmentEnd {
        chunk := Some(buffer[fragmentStart..fragmentEnd]);
        fragmentStart := fragmentEnd;
        returned := returned + chunk.value;
        assert Live() == [];
      }
    }

    /** The next chunk, if there is one. All that the splitter has not accepted yet is shown to it;
        what it accepts now follows what it accepted before. */
    method Next(eoi: bool) returns (chunk: Option<seq<byte>>)
      requires Valid()
      modifies this`fed, this`fragmentStart, this`feeds, this`returned, this`accepted
      ensures Valid()
      ensures returned == old(returned) + if chunk.Some? then chunk.value else []
      ensures var data := old(Live()[Seen()..]);
        var answer := split(old(feeds), data);
        && feeds == old(feeds) + [Feed(data, answer)]
        && accepted == old(accepted) + Feed(data, answer).Accepted()
        && Chunked(answer, eoi, old(Live()), old(Seen()), chunk, Live(), Seen())
    {
      Slices(buffer, fragmentStart, fed, fragmentEnd);
      var data := buffer[fed..fragmentEnd];
      var answer := split(feeds, data);
      feeds := feeds + [Feed(data, answer)];
      if answer.Some? {
        var c := CutAt(answer.value);
        chunk := Some(c);
      } else {
        chunk := Exhaust(eoi);
      }
    }

    method Append(data: seq<byte>)
      requires Valid()
      modifies this`buffer, this`start, this`fragmentStart, this`fragmentEnd, this`fed, this`supplied
      ensures Valid()
      ensures supplied == old(supplied) + data && Live() == old(Live()) + data && Seen() == old(Seen())
    {
      ghost var live := Live();
      SupplyKeeps(returned, live, Seen(), supplied, accepted, data);
      var len := fragmentEnd - fragmentStart;
      buffer := CopyToFront(buffer, fragmentStart, fragmentEnd);
      buffer := Resize(buffer, len);
      buffer := buffer + data;
      fed := fed - fragmentStart;
      start := start + fragmentStart;
      fragmentStart, fragmentEnd := 0, |buffer|;
      supplied := supplied + data;
      assert Live() == live + data;
    }

    /** Moves the live bytes to the front. */
    method MoveToFront()
      requires Valid()
      modifies this`buffer, this`start, this`fragmentStart, this`fragmentEnd, this`fed
      ensures Valid() && fragmentStart == 0 && |buffer| == |old(buffer)|
      ensures Live() == old(Live()) && Seen() == old(Seen())
    {
      ghost var live := Live();
      var len := fragmentEnd - fragmentStart;
      if fragmentStart != 0 {
        buffer := CopyToFront(buffer, fragmentStart, fragmentEnd);
        fed := fed - fragmentStart;
        start := start + fragmentStart;
        fragmentStart, fragmentEnd := 0, len;
      }
      assert Live() == live;
    }

    /** Makes space behind the live bytes. */
    method MakeRoom(bufferSize: nat, capacity: nat)
      requires Valid() && capacity >= |buffer|
      modifies this`buffer, this`start, this`fragmentStart, this`fragmentEnd, this`fed
      ensures Valid() && fragmentStart == 0
      ensures Live() == old(Live()) && Seen() == old(Seen())
      ensures fragmentEnd == |buffer| <==> bufferSize == 0 && capacity == 0
    {
      MoveToFront();
      ghost var live := Live();
      if fragmentEnd == |buffer| {
        assert live == buffer;
        buffer := Resize(buffer, Max(bufferSize, capacity * 2));
        assert Live() == live;
      }
    }

    /** The system has put `data` into the space behind the live bytes. */
    method Fill(data: seq<byte>)
      requires Valid() && fragmentEnd + |data| <= |buffer|
      modifies this`buffer, this`fragmentEnd, this`supplied
      ensures Valid()
      ensures supplied == old(supplied) + data && Live() == old(Live()) + data && Seen() == old(Seen())
    {
      ghost var live := Live();
      SupplyKeeps(returned, live, Seen(), supplied, accepted, data);
      buffer := buffer[..fragmentEnd] + data + buffer[fragmentEnd + |data|..];
      fragmentEnd := fragmentEnd + |data|;
      supplied := supplied + data;
      assert Live() == live + data;
    }

    /** Reads from a file of which `ready` is what the system would deliver now. `capacity` is what
        the allocator has reserved for the buffer. It reports no bytes only if there is nothing to
        read, nothing is allowed, or a fresh buffer of no size is asked for. */
    method Read(ready: Result<seq<byte>, IoError>, bufferSize: nat, limit: nat, capacity: nat)
      returns (r: Result<nat, IoError>)
      requires Valid() && capacity >= |buffer|
      modifies this`buffer, this`start, this`fragmentStart, this`fragmentEnd, this`fed, this`supplied
      ensures Valid()
      ensures Seen() == old(Seen())
      ensures r.Ok? <==> ready.Ok?
      ensures r.Err? ==> supplied == old(supplied) && Live() == old(Live())
      ensures r.Ok? ==>
                && r.value <= limit && r.value <= |ready.value|
                && supplied == old(supplied) + ready.value[..r.value]
                && Live() == old(Live()) + ready.value[..r.value]
                && (r.value == 0 <==> ready.value == [] || limit == 0 || (bufferSize == 0 && capacity == 0))
    {
      MakeRoom(bufferSize, capacity);
      if ready.Err? {
        return Err(ready.error);
      }
      var n := Min(Min(|buffer| - fragmentEnd, limit), |ready.value|);
      Fill(ready.value[..n]);
      r := Ok(n);
    }

    function Position(): (p: nat)
      requires Valid()
      reads this
      ensures p == origin + |returned|
    {
      start + fragmentStart
    }

    method Seek(offset: nat)
      requires IsSplitter(split)
      modifies this
      ensures Valid() && origin == offset && supplied == [] && returned == [] && feeds == []
    {
      start := offset;
      fragmentStart, fragmentEnd, fed := 0, 0, 0;
      feeds := [];
      origin, supplied, returned, accepted := offset, [], [], [];
    }
  }
}
