/** Writing a file, directly and in buffered portions (`options/file.go`), over
    the wire conversion that carries each portion
    (`remote/internal/jasper.ext.go`). */
module WriteFile {
  import opened Wrappers

  type Byte = b: int | 0 <= b < 256

  type Bytes = seq<Byte>

  const BUFFER_SIZE := 1024 * 1024

  /** What one read can return. */
  type Chunk = c: Bytes | |c| <= BUFFER_SIZE

  function Flatten(chunks: seq<Bytes>): Bytes {
    if chunks == [] then [] else Flatten(chunks[..|chunks| - 1]) + chunks[|chunks| - 1]
  }

  lemma {:induction false} FlattenConcat(a: seq<Bytes>, b: seq<Bytes>)
    ensures Flatten(a + b) == Flatten(a) + Flatten(b)
  {
    if b == [] {
      assert a + b == a;
    } else {
      var n := |b| - 1;
      assert (a + b)[..|a + b| - 1] == a + b[..n];
      FlattenConcat(a, b[..n]);
    }
  }

  lemma Assoc(a: Bytes, b: Bytes, c: Bytes)
    ensures a + b + c == a + (b + c)
  {
  }

  lemma FlattenNone()
    ensures Flatten([]) == []
  {
  }

  lemma FlattenLast(chunks: seq<Bytes>, last: Bytes)
    ensures Flatten(chunks + [last]) == Flatten(chunks) + last
  {
    assert (chunks + [last])[..|chunks|] == chunks;
  }

  lemma FlattenOne(data: Bytes)
    ensures Flatten([data]) == data
  {
    FlattenNone();
    FlattenLast([], data);
    assert [] + [data] == [data];
  }

  lemma FlattenFirst(chunks: seq<Bytes>)
    ensures Flatten(chunks) == if chunks == [] then [] else chunks[0] + Flatten(chunks[1..])
  {
    hide Flatten;
    if chunks == [] {
      FlattenNone();
    } else {
      FlattenOne(chunks[0]);
      FlattenConcat([chunks[0]], chunks[1..]);
      assert chunks == [chunks[0]] + chunks[1..];
    }
  }

  /** How a read ends. */
  datatype Status = More | EndOfFile | ReadError

  /** An `io.Reader` that yields these chunks and then ends, with end of file or with
      an error, which it reports with the last chunk or on the read after it. */
  class Reader {
    var chunks: seq<Chunk>
    const endWithLast: bool
    const fails: bool

    constructor (chunks: seq<Chunk>, endWithLast: bool, fails: bool)
      ensures this.chunks == chunks && this.endWithLast == endWithLast && this.fails == fails
    {
      this.chunks, this.endWithLast, this.fails := chunks, endWithLast, fails;
    }

    function End(): Status {
      if fails then ReadError else EndOfFile
    }

    method Read() returns (buf: Chunk, status: Status)
      modifies this
      ensures old(chunks) == [] ==> buf == [] && status == End() && chunks == []
      ensures old(chunks) != [] ==> buf == old(chunks)[0] && chunks == old(chunks)[1..]
      ensures old(chunks) != [] ==> status == if endWithLast && |old(chunks)| == 1 then End() else More
    {
      if chunks == [] {
        return [], if fails then ReadError else EndOfFile;
      }
      buf := chunks[0];
      chunks := chunks[1..];
      status := More;
      if endWithLast && chunks == [] {
        status := if fails then ReadError else EndOfFile;
      }
    }
  }

  /** What goes wrong with one write request: it does not get as far as the open
      file; copying fails after some bytes; closing the file fails. */
  datatype Fault = Healthy | NotReached | CopyFails(after: nat) | CloseFails

  class File {
    var bytes: Bytes
    var requests: nat
    const faults: nat -> Fault

    constructor (bytes: Bytes, faults: nat -> Fault)
      ensures this.bytes == bytes && requests == 0 && this.faults == faults
    {
      this.bytes, requests := bytes, 0;
      this.faults := faults;
    }
  }

  // ----- one write

  /** What is in the file once it is open: opening truncates unless appending. */
  function Opened(before: Bytes, append: bool): Bytes {
    if append then before else []
  }

  function Prefix(data: Bytes, n: nat): Bytes {
    if n < |data| then data[..n] else data
  }

  /** What one write request leaves in the file; `source` is the content, if it is
      clear which content is meant. */
  function AfterWrite(before: Bytes, append: bool, source: Option<Bytes>, fault: Fault): Bytes {
    if fault.NotReached? then before
    else Opened(before, append)
         + (if source.None? then [] else if fault.CopyFails? then Prefix(source.value, fault.after) else source.value)
  }

  predicate WriteOk(source: Option<Bytes>, fault: Fault) {
    source.Some? && fault.Healthy?
  }

  class WriteFile {
    var content: Bytes
    var reader: Reader?
    const append: bool

    constructor (content: Bytes, reader: Reader?, append: bool)
      ensures this.content == content && this.reader == reader && this.append == append
    {
      this.content, this.reader, this.append := content, reader, append;
    }

    predicate OneSource()
      reads this
    {
      !(|content| > 0 && reader != null)
    }

    /** All the content there is to write, if it comes from one source. */
    ghost function Source(): Option<Bytes>
      reads this, reader
    {
      if !OneSource() then None
      else if reader != null then Some(Flatten(reader.chunks)) else Some(content)
    }

    /** Reading the content ends with an error. */
    ghost predicate ReadFails()
      reads this
    {
      reader != null && reader.fails
    }

    /** Content held in memory is moved to a reader of its own. */
    method ContentReader() returns (r: Reader?)
      modifies this`content, this`reader
      ensures r == null <==> !old(OneSource())
      ensures r == null ==> content == old(content) && reader == old(reader)
      ensures r != null ==>
                && reader == r && content == [] && (old(reader) != null ==> r == old(reader))
                && (old(reader) == null ==> fresh(r))
                && Some(Flatten(r.chunks)) == old(Source()) && r.fails == old(ReadFails())
    {
      if !OneSource() {
        return null;
      }
      if reader == null {
        var chunks := InChunks(content);
        reader := new Reader(chunks, false, false);
        content := [];
      }
      r := reader;
    }

    /** The file is opened, and truncated unless appending, before the content is
        looked at; two sources are an error; the content, from memory or from the
        reader, is copied until the end or until a fault; a read error is reported.
        The options' content is used up by a write that succeeds. */
    method DoWrite(file: File) returns (ok: bool)
      modifies this`content, this`reader, reader, file
      ensures file.requests == old(file.requests) + 1
      ensures file.bytes == AfterWrite(old(file.bytes), append, old(Source()), file.faults(old(file.requests)))
      ensures ok <==> WriteOk(old(Source()), file.faults(old(file.requests))) && !old(ReadFails())
      ensures ok ==> Source() == Some([])
    {
      var fault := file.faults(file.requests);
      file.requests := file.requests + 1;
      if fault.NotReached? {
        return false;
      }
      if !append {
        file.bytes := [];
      }
      var r := ContentReader();
      if r == null {
        return false;
      }
      var copied := Copy(file, r, fault);
      ok := copied && fault.Healthy?;
    }

    /** The next portion of the content, and how the read ended, unless there are two
        sources. */
    method ContentBytes() returns (buf: Bytes, end: Option<Status>)
      modifies reader
      ensures end.None? <==> !OneSource()
      ensures !OneSource() ==> buf == [] && reader.chunks == old(reader.chunks)
      ensures OneSource() && reader == null ==> buf == content && end == Some(EndOfFile)
      ensures OneSource() && reader != null && old(reader.chunks) == [] ==>
                buf == [] && end == Some(reader.End()) && reader.chunks == []
      ensures OneSource() && reader != null && old(reader.chunks) != [] ==>
                && buf == old(reader.chunks)[0] && reader.chunks == old(reader.chunks)[1..]
                && end == Some(if reader.endWithLast && |old(reader.chunks)| == 1 then reader.End() else More)
    {
      if !OneSource() {
        return [], None;
      }
      if reader != null {
        var status;
        buf, status := reader.Read();
        return buf, Some(status);
      }
      return content, Some(EndOfFile);
    }

    /** The reader's end comes with bytes that buffered writing sees. */
    ghost predicate EndsWithBytes()
      reads this, reader
    {
      reader != null && reader.endWithLast && reader.chunks != [] && Seen(reader.chunks) == reader.chunks
    }

    /** All that buffered writing sees: what the reader yields until it yields
        nothing, or the content in one piece. */
    ghost function SeenPieces(): seq<Bytes>
      reads this, reader
    {
      if reader != null then Seen(reader.chunks) else if content == [] then [] else [content]
    }

    /** The portions that it sends: bytes that come with a read error are dropped. */
    ghost function Pieces(): seq<Bytes>
      reads this, reader
    {
      if EndsWithBytes() && ReadFails() then SeenPieces()[..|SeenPieces()| - 1] else SeenPieces()
    }

    /** The last portion comes with end of file. */
    ghost predicate EndsWithPiece()
      reads this, reader
    {
      reader == null || (EndsWithBytes() && !ReadFails())
    }

    lemma NoPieces()
      requires OneSource() && Pieces() == []
      ensures content == [] && (EndsWithBytes() ==> ReadFails())
    {
    }

    lemma PiecesAre()
      requires OneSource()
      ensures Pieces() == if EndsWithBytes() && ReadFails() then SeenPieces()[..|SeenPieces()| - 1] else SeenPieces()
      ensures ReadFails() <==> reader != null && reader.fails
      ensures EndsWithPiece() <==> reader == null || (EndsWithBytes() && !ReadFails())
      ensures reader == null ==> SeenPieces() == (if content == [] then [] else [content]) && !EndsWithBytes()
      ensures reader != null ==>
                && content == [] && SeenPieces() == Seen(reader.chunks)
                && (EndsWithBytes() <==>
                      reader.endWithLast && reader.chunks != [] && Seen(reader.chunks) == reader.chunks)
    {
    }

    /** The loop that sends the portions; `returned` is what `WriteBufferedContent`
        returns out of it, if it does. */
    method SendPortions(file: File) returns (didWrite: bool, returned: Option<bool>)
      requires OneSource()
      modifies reader, file
      ensures returned.None? ==> (didWrite <==> old(Pieces()) != [])
      ensures old(Pieces()) == [] ==> file.bytes == old(file.bytes)
      ensures var pieces, first := old(Pieces()), old(file.requests);
              && file.requests == first + |pieces|
              && file.bytes == AfterPortions(old(file.bytes), append, pieces, file.faults, first, |pieces|)
              && returned == if old(EndsWithBytes()) && old(ReadFails()) then Some(false)
                             else if pieces != [] && old(EndsWithPiece())
                             then Some(file.faults(first + |pieces| - 1).Healthy?)
                             else None
    {
      hide Flatten, Seen, AfterWrite, AfterPortions;
      hide WriteFile.Pieces, WriteFile.SeenPieces, WriteFile.EndsWithBytes, WriteFile.EndsWithPiece, WriteFile.ReadFails;
      PiecesAre();
      ghost var pieces, seen, first := Pieces(), SeenPieces(), file.requests;
      ghost var endsWithBytes := EndsWithBytes();
      ghost var all: seq<Chunk> := if reader != null then reader.chunks else [];
      ghost var k := 0;
      SeenFirst(all, 0);
      SeenFirst(all, |seen|);
      NoPortionYet(old(file.bytes), append, pieces, file.faults, first);
      didWrite, returned := false, None;
      var buf, end := ContentBytes();
      while |buf| != 0
        invariant OneSource() && end.Some?
        invariant didWrite <==> k > 0
        invariant 0 <= k <= |pieces| && file.requests == first + k
        invariant buf == [] <==> k == |seen|
        invariant buf != [] ==> buf == seen[k]
        invariant reader == null ==> k == 0 && end.value.EndOfFile?
        invariant reader != null && buf != [] ==> k < |all| && reader.chunks == all[k + 1..] && seen == Seen(all)
        invariant reader != null && buf != [] ==>
                    end.value == if reader.endWithLast && k + 1 == |all| then reader.End() else More
        invariant buf == [] ==> !endsWithBytes && (k > 0 ==> reader != null)
        invariant file.bytes == AfterPortions(old(file.bytes), append, pieces, file.faults, first, k)
        decreases |seen| - k
      {
        SeenFirst(all, k + 1);
        if end.value.ReadError? {
          return didWrite, Some(false);
        }
        var wrote := DoWriteOverWire(file, buf, append || didWrite);
        k := k + 1;
        OnePortionMore(old(file.bytes), append, pieces, file.faults, first, k);
        if end.value.EndOfFile? {
          return didWrite, Some(wrote);
        }
        didWrite := true;
        buf, end := ContentBytes();
      }
    }

    /** `WriteBufferedContent` with portions sent over the wire.  The file holds
        what arrived of each portion, in order; unless a first request that does not
        reach the file leaves it untruncated, that is all of the portions exactly if
        each of them arrives whole.  Yet a failed write is reported only if it is
        the one that came with end of file, or if there was nothing to write, and a
        read error only if it came with bytes: all other losses are reported as
        success. */
    method WriteBufferedContent(file: File) returns (ok: bool)
      modifies reader, file
      ensures !OneSource() ==> !ok && file.bytes == old(file.bytes)
      ensures OneSource() ==>
                var pieces, first := old(Pieces()), old(file.requests);
                if pieces == [] then
                  if old(EndsWithBytes()) then !ok && file.bytes == old(file.bytes)
                  else
                    && file.bytes == AfterWrite(old(file.bytes), append, Some([]), file.faults(first))
                    && (ok <==> WriteOk(Some([]), file.faults(first)))
                else
                  && file.bytes == Base(old(file.bytes), append, file.faults(first))
                                   + Flatten(Arrivals(pieces, file.faults, first))
                  && (append || !file.faults(first).NotReached? ==>
                        (file.bytes == Opened(old(file.bytes), append) + Flatten(pieces)
                         <==> AllWhole(pieces, file.faults, first)))
                  && (ok <==> && !(old(EndsWithBytes()) && old(ReadFails()))
                              && (old(EndsWithPiece()) ==> file.faults(first + |pieces| - 1).Healthy?))
      ensures reader == null && content != [] ==> (ok <==> file.faults(old(file.requests)).Healthy?)
      ensures OneSource() && reader != null && old(reader.chunks) != [] && [] !in old(reader.chunks) ==>
                (ok <==> reader.endWithLast ==>
                           !reader.fails && file.faults(old(file.requests) + |old(reader.chunks)| - 1).Healthy?)
    {
      hide Flatten, Seen, AfterWrite, AfterPortions, Arrivals, AllWhole, Base, Opened;
      hide WriteFile.Pieces, WriteFile.SeenPieces, WriteFile.EndsWithBytes, WriteFile.EndsWithPiece, WriteFile.ReadFails;
      if !OneSource() {
        return false;
      }
      PiecesAre();
      if reader != null {
        SeenAll(reader.chunks);
      }
      if Pieces() == [] {
        NoPieces();
      } else {
        PortionsResult(file.bytes, append, Pieces(), file.faults, file.requests);
      }
      var didWrite, returned := SendPortions(file);
      if returned.Some? {
        return returned.value;
      }
      if didWrite {
        return true;
      }
      ok := DoWriteOverWire(file, content, append);
    }
  }

  /** A portion after conversion to its wire form and export on the other side: the
      content and the flag arrive, the reader does not. */
  method DoWriteOverWire(file: File, content: Bytes, append: bool) returns (ok: bool)
    modifies file
    ensures file.requests == old(file.requests) + 1
    ensures file.bytes == AfterWrite(old(file.bytes), append, Some(content), file.faults(old(file.requests)))
    ensures ok <==> WriteOk(Some(content), file.faults(old(file.requests)))
  {
    var arrived := new WriteFile(content, null, append);
    ok := arrived.DoWrite(file);
  }

  /** Copies what the reader yields, up to where the fault strikes. */
  method Copy(file: File, r: Reader, fault: Fault) returns (ok: bool)
    modifies file`bytes, r
    ensures file.bytes == old(file.bytes)
                          + if fault.CopyFails? then Prefix(Flatten(old(r.chunks)), fault.after) else Flatten(old(r.chunks))
    ensures fault.Healthy? ==> r.chunks == [] && ok == !r.fails
  {
    hide Flatten, Prefix;
    ghost var all, start, done := Flatten(r.chunks), file.bytes, [];
    NoTail(start);
    NoHead(all);
    var copied: nat := 0;
    var status := More;
    while status == More
      invariant copied == |done| && file.bytes == start + done
      invariant all == done + Flatten(r.chunks)
      invariant status != More ==> r.chunks == [] && status == r.End()
      invariant fault.CopyFails? ==> copied <= fault.after
      decreases status == More, |r.chunks|
    {
      FlattenFirst(r.chunks);
      var buf: Chunk;
      buf, status := r.Read();
      FlattenNone();
      Assoc(done, buf, Flatten(r.chunks));
      Assoc(start, done, buf);
      if fault.CopyFails? && copied + |buf| > fault.after {
        file.bytes := file.bytes + buf[..fault.after - copied];
        Assoc(start, done, buf[..fault.after - copied]);
        PrefixWithin(done, buf, Flatten(r.chunks), fault.after);
        return false;
      }
      file.bytes := file.bytes + buf;
      done := done + buf;
      copied := copied + |buf|;
    }
    FlattenNone();
    NoTail(done);
    PrefixOfAll(all, if fault.CopyFails? then fault.after else |all|);
    ok := status == EndOfFile;
  }

  lemma NoTail(a: Bytes)
    ensures a + [] == a
  {
  }

  lemma NoHead(a: Bytes)
    ensures [] + a == a
  {
  }

  lemma PrefixOfAll(data: Bytes, n: nat)
    requires |data| <= n
    ensures Prefix(data, n) == data
  {
  }

  lemma PrefixWithin(done: Bytes, buf: Bytes, rest: Bytes, n: nat)
    requires |done| <= n < |done| + |buf|
    ensures Prefix(done + (buf + rest), n) == done + buf[..n - |done|]
  {
  }

  method InChunks(content: Bytes) returns (chunks: seq<Chunk>)
    ensures Flatten(chunks) == content
  {
    chunks := [];
    var done := 0;
    while done < |content|
      invariant done <= |content| && Flatten(chunks) == content[..done]
    {
      var n := if |content| - done < BUFFER_SIZE then |content| - done else BUFFER_SIZE;
      var c: Chunk := content[done..done + n];
      assert (chunks + [c])[..|chunks|] == chunks;
      assert content[..done] + c == content[..done + n];
      chunks := chunks + [c];
      done := done + n;
    }
    assert content[..done] == content;
  }

  // ----- portions

  /** What a reader yields before the first read without bytes. */
  function Seen(chunks: seq<Bytes>): seq<Bytes> {
    if chunks == [] || chunks[0] == [] then [] else [chunks[0]] + Seen(chunks[1..])
  }

  /** A reader that yields only non-empty chunks is seen to its end. */
  lemma {:induction false} SeenAll(chunks: seq<Bytes>)
    ensures (forall c :: c in chunks ==> c != []) <==> Seen(chunks) == chunks
    ensures Seen(chunks) <= chunks
  {
    if chunks != [] {
      assert chunks[0] in chunks;
      assert chunks == [chunks[0]] + chunks[1..];
      assert forall c :: c in chunks <==> c == chunks[0] || c in chunks[1..];
      if chunks[0] != [] {
        SeenAll(chunks[1..]);
        assert Seen(chunks)[1..] == Seen(chunks[1..]);
      }
    }
  }

  /** Where the portion at a position comes from. */
  lemma {:induction false} SeenFirst(chunks: seq<Bytes>, k: nat)
    ensures k < |Seen(chunks)| ==> k < |chunks| && Seen(chunks)[k] == chunks[k] && chunks[k] != []
    ensures k == |Seen(chunks)| && k < |chunks| ==> chunks[k] == []
    ensures |Seen(chunks)| <= |chunks|
    ensures |Seen(chunks)| == |chunks| <==> Seen(chunks) == chunks
  {
    SeenAll(chunks);
    if chunks != [] && chunks[0] != [] && k > 0 {
      SeenFirst(chunks[1..], k - 1);
    }
  }

  /** The contents after the first `n` portions, when the first goes to request
      `first` and every later one appends. */
  function AfterPortions(before: Bytes, append: bool, pieces: seq<Bytes>, faults: nat -> Fault, first: nat, n: nat): Bytes
    requires n <= |pieces|
  {
    if n == 0 then before
    else
      AfterWrite(AfterPortions(before, append, pieces, faults, first, n - 1),
                 append || n > 1, Some(pieces[n - 1]), faults(first + n - 1))
  }

  lemma NoPortionYet(before: Bytes, append: bool, pieces: seq<Bytes>, faults: nat -> Fault, first: nat)
    ensures AfterPortions(before, append, pieces, faults, first, 0) == before
  {
  }

  lemma OnePortionMore(before: Bytes, append: bool, pieces: seq<Bytes>, faults: nat -> Fault, first: nat, n: nat)
    requires 0 < n <= |pieces|
    ensures AfterPortions(before, append, pieces, faults, first, n) ==
            AfterWrite(AfterPortions(before, append, pieces, faults, first, n - 1),
                       append || n > 1, Some(pieces[n - 1]), faults(first + n - 1))
  {
  }

  /** What gets into the file of a portion. */
  function Arrived(piece: Bytes, fault: Fault): Bytes {
    match fault
    case NotReached => []
    case CopyFails(after) => Prefix(piece, after)
    case _ => piece
  }

  function Arrivals(pieces: seq<Bytes>, faults: nat -> Fault, first: nat): (r: seq<Bytes>)
    ensures |r| == |pieces|
  {
    seq(|pieces|, k requires 0 <= k < |pieces| => Arrived(pieces[k], faults(first + k)))
  }

  /** What the portions are added to: only the first request truncates. */
  function Base(before: Bytes, append: bool, fault: Fault): Bytes {
    if append || fault.NotReached? then before else []
  }

  /** The fault, if any, strikes after all of the portion was copied. */
  predicate Whole(piece: Bytes, fault: Fault) {
    match fault
    case NotReached => piece == []
    case CopyFails(after) => after >= |piece|
    case _ => true
  }

  predicate AllWhole(pieces: seq<Bytes>, faults: nat -> Fault, first: nat) {
    forall k :: 0 <= k < |pieces| ==> Whole(pieces[k], faults(first + k))
  }

  lemma OneWrite(before: Bytes, append: bool, piece: Bytes, fault: Fault)
    ensures AfterWrite(before, append, Some(piece), fault) == Base(before, append, fault) + Arrived(piece, fault)
  {
  }

  /** Writing in portions leaves what arrived of each, one after the other. */
  lemma {:induction false} PortionsContents(before: Bytes, append: bool, pieces: seq<Bytes>, faults: nat -> Fault,
                                            first: nat, n: nat)
    requires 0 < n <= |pieces|
    ensures AfterPortions(before, append, pieces, faults, first, n)
            == Base(before, append, faults(first)) + Flatten(Arrivals(pieces[..n], faults, first))
  {
    hide AfterPortions, AfterWrite, Arrivals, Arrived, Flatten;
    var before' := AfterPortions(before, append, pieces, faults, first, n - 1);
    var last := Arrived(pieces[n - 1], faults(first + n - 1));
    OnePortionMore(before, append, pieces, faults, first, n);
    OneWrite(before', append || n > 1, pieces[n - 1], faults(first + n - 1));
    OneArrivalMore(pieces[..n], faults, first);
    assert pieces[..n][..n - 1] == pieces[..n - 1];
    if n > 1 {
      PortionsContents(before, append, pieces, faults, first, n - 1);
      Assoc(Base(before, append, faults(first)), Flatten(Arrivals(pieces[..n - 1], faults, first)), last);
    } else {
      NoPortionYet(before, append, pieces, faults, first);
      FlattenNone();
      assert Arrivals(pieces[..0], faults, first) == [];
    }
  }

  lemma LastArrival(pieces: seq<Bytes>, faults: nat -> Fault, first: nat)
    requires pieces != []
    ensures var n := |pieces| - 1;
            Arrivals(pieces, faults, first) == Arrivals(pieces[..n], faults, first) + [Arrived(pieces[n], faults(first + n))]
  {
    hide Arrived;
  }

  lemma LastWhole(pieces: seq<Bytes>, faults: nat -> Fault, first: nat)
    requires pieces != []
    ensures var n := |pieces| - 1;
            AllWhole(pieces, faults, first) <==>
              AllWhole(pieces[..n], faults, first) && Whole(pieces[n], faults(first + n))
  {
    hide Whole;
  }

  lemma OneArrivalMore(pieces: seq<Bytes>, faults: nat -> Fault, first: nat)
    requires pieces != []
    ensures var n := |pieces| - 1;
            Flatten(Arrivals(pieces, faults, first))
            == Flatten(Arrivals(pieces[..n], faults, first)) + Arrived(pieces[n], faults(first + n))
  {
    hide Arrived, Arrivals, Flatten;
    LastArrival(pieces, faults, first);
    FlattenLast(Arrivals(pieces[..|pieces| - 1], faults, first), Arrived(pieces[|pieces| - 1], faults(first + |pieces| - 1)));
  }

  lemma FlattenSplit(pieces: seq<Bytes>)
    requires pieces != []
    ensures Flatten(pieces) == Flatten(pieces[..|pieces| - 1]) + pieces[|pieces| - 1]
  {
  }

  /** That is all of the portions exactly if each of them arrives whole. */
  lemma {:induction false} WholeContents(pieces: seq<Bytes>, faults: nat -> Fault, first: nat)
    ensures |Flatten(Arrivals(pieces, faults, first))| <= |Flatten(pieces)|
    ensures Flatten(Arrivals(pieces, faults, first)) == Flatten(pieces) <==> AllWhole(pieces, faults, first)
    ensures |Flatten(Arrivals(pieces, faults, first))| == |Flatten(pieces)| ==> AllWhole(pieces, faults, first)
    decreases |pieces|
  {
    if pieces == [] {
      assert Arrivals(pieces, faults, first) == [];
    } else {
      hide Flatten, Arrivals, Arrived, Whole, AllWhole;
      var n := |pieces| - 1;
      WholeContents(pieces[..n], faults, first);
      ArrivedWhole(pieces[n], faults(first + n));
      OneArrivalMore(pieces, faults, first);
      FlattenSplit(pieces);
      LastWhole(pieces, faults, first);
    }
  }

  lemma SameTail(base: Bytes, a: Bytes, b: Bytes)
    ensures base + a == base + b <==> a == b
  {
    assert (base + a)[|base|..] == a && (base + b)[|base|..] == b;
  }

  /** The two together. */
  lemma PortionsResult(before: Bytes, append: bool, pieces: seq<Bytes>, faults: nat -> Fault, first: nat)
    requires pieces != []
    ensures var after := AfterPortions(before, append, pieces, faults, first, |pieces|);
            && after == Base(before, append, faults(first)) + Flatten(Arrivals(pieces, faults, first))
            && (append || !faults(first).NotReached? ==>
                  (after == Opened(before, append) + Flatten(pieces) <==> AllWhole(pieces, faults, first)))
  {
    PortionsContents(before, append, pieces, faults, first, |pieces|);
    assert pieces[..|pieces|] == pieces;
    WholeContents(pieces, faults, first);
    assert append || !faults(first).NotReached? ==> Base(before, append, faults(first)) == Opened(before, append);
    hide Flatten, Arrivals, AllWhole, AfterPortions, Base, Opened;
    SameTail(Opened(before, append), Flatten(Arrivals(pieces, faults, first)), Flatten(pieces));
  }

  lemma ArrivedWhole(piece: Bytes, fault: Fault)
    ensures |Arrived(piece, fault)| <= |piece|
    ensures Whole(piece, fault) <==> Arrived(piece, fault) == piece
    ensures |Arrived(piece, fault)| == |piece| ==> Whole(piece, fault)
  {
  }

  /** When every write succeeds, writing in portions is writing in one go. */
  lemma PortionsAreOneWrite(before: Bytes, append: bool, pieces: seq<Bytes>, faults: nat -> Fault, first: nat)
    requires pieces != [] && forall k :: first <= k < first + |pieces| ==> faults(k).Healthy?
    ensures AfterPortions(before, append, pieces, faults, first, |pieces|) ==
            AfterWrite(before, append, Some(Flatten(pieces)), Healthy)
  {
    PortionsContents(before, append, pieces, faults, first, |pieces|);
    assert pieces[..|pieces|] == pieces;
    WholeContents(pieces, faults, first);
    OneWrite(before, append, Flatten(pieces), Healthy);
    assert AllWhole(pieces, faults, first);
    hide Flatten, Arrivals, AfterPortions, AfterWrite;
  }

  /** The bytes that buffered writing does not get to. */
  function Unseen(chunks: seq<Bytes>): Bytes {
    if chunks == [] then [] else if chunks[0] == [] then Flatten(chunks) else Unseen(chunks[1..])
  }

  lemma {:induction false} SeenAndUnseen(chunks: seq<Bytes>)
    ensures Flatten(chunks) == Flatten(Seen(chunks)) + Unseen(chunks)
  {
    if chunks != [] && chunks[0] != [] {
      SeenAndUnseen(chunks[1..]);
      FlattenConcat([chunks[0]], chunks[1..]);
      FlattenConcat([chunks[0]], Seen(chunks[1..]));
      assert chunks == [chunks[0]] + chunks[1..];
    }
  }

  lemma NothingUnseen(chunks: seq<Bytes>)
    requires forall c :: c in chunks ==> c != []
    ensures Unseen(chunks) == []
  {
    SeenAll(chunks);
    SeenAndUnseen(chunks);
  }

  // ----- both ways

  function AlwaysHealthy(): nat -> Fault {
    (k: nat) => Healthy
  }

  /** The same options written both ways, to files with the same contents, when
      every write succeeds.  Without read errors both accept the same options, and
      the files end up the same exactly when no bytes follow a read without bytes
      or, if there are two sources, when there was nothing to truncate: the direct
      write truncates before it rejects them. */
  method BothWays(content: Bytes, hasReader: bool, chunks: seq<Chunk>, endWithLast: bool, append: bool, before: Bytes)
    returns (buffered: Bytes, bufferedOk: bool, direct: Bytes, directOk: bool)
    ensures bufferedOk == directOk == !(|content| > 0 && hasReader)
    ensures bufferedOk ==> direct == Opened(before, append) + if hasReader then Flatten(chunks) else content
    ensures bufferedOk ==> (buffered == direct <==> !hasReader || Unseen(chunks) == [])
    ensures bufferedOk && (forall c :: c in chunks ==> c != []) ==> buffered == direct
    ensures !bufferedOk ==> (buffered == direct <==> append || before == [])
  {
    var reader1, reader2: Reader? := null, null;
    if hasReader {
      reader1 := new Reader(chunks, endWithLast, false);
      reader2 := new Reader(chunks, endWithLast, false);
    }
    var opts1 := new WriteFile(content, reader1, append);
    buffered, bufferedOk := Buffered(opts1, before);
    var opts2 := new WriteFile(content, reader2, append);
    direct, directOk := Direct(opts2, before);
    SeenAndUnseen(chunks);
    if forall c :: c in chunks ==> c != [] {
      NothingUnseen(chunks);
    }
    FlattenNone();
    FlattenOne(content);
    hide Flatten, Seen, Unseen, AfterWrite;
    if bufferedOk && hasReader {
      AgreeUnless(Opened(before, append), Flatten(Seen(chunks)), Unseen(chunks));
    }
  }

  /** A reader that ends with an error, written both ways when every write succeeds.
      The direct write always reports the error and keeps all bytes.  The buffered
      write reports it exactly if it comes with bytes and no read was without bytes,
      and then drops those bytes; otherwise it reports success. */
  method FailingReader(chunks: seq<Chunk>, endWithLast: bool, append: bool, before: Bytes)
    returns (buffered: Bytes, bufferedOk: bool, direct: Bytes, directOk: bool)
    ensures !directOk && direct == Opened(before, append) + Flatten(chunks)
    ensures !bufferedOk <==> endWithLast && chunks != [] && forall c :: c in chunks ==> c != []
    ensures bufferedOk ==> buffered == Opened(before, append) + Flatten(Seen(chunks))
    ensures !bufferedOk ==>
              buffered == if |chunks| == 1 then before
                          else Opened(before, append) + Flatten(chunks[..|chunks| - 1])
  {
    var reader1 := new Reader(chunks, endWithLast, true);
    var opts1 := new WriteFile([], reader1, append);
    buffered, bufferedOk := Buffered(opts1, before);
    var reader2 := new Reader(chunks, endWithLast, true);
    var opts2 := new WriteFile([], reader2, append);
    direct, directOk := Direct(opts2, before);
    SeenAll(chunks);
  }

  /** A buffered write to a new file, when every write succeeds. */
  method Buffered(opts: WriteFile, before: Bytes) returns (contents: Bytes, ok: bool)
    modifies opts.reader
    ensures ok == (opts.OneSource() && !(old(opts.EndsWithBytes()) && opts.ReadFails()))
    ensures opts.OneSource() ==>
              contents == if old(opts.Pieces()) == [] && !ok then before
                          else Opened(before, opts.append) + Flatten(old(opts.Pieces()))
    ensures !opts.OneSource() ==> contents == before
  {
    hide Seen;
    var file := new File(before, AlwaysHealthy());
    ghost var pieces := opts.Pieces();
    ok := opts.WriteBufferedContent(file);
    contents := file.bytes;
    assert AllWhole(pieces, AlwaysHealthy(), 0);
  }

  /** A direct write to a new file, when it meets no fault. */
  method Direct(opts: WriteFile, before: Bytes) returns (contents: Bytes, ok: bool)
    modifies opts`content, opts`reader, opts.reader
    ensures ok == old(opts.OneSource() && !opts.ReadFails())
    ensures contents == Opened(before, opts.append) + if old(opts.OneSource()) then old(opts.Source()).value else []
  {
    hide Flatten;
    var file := new File(before, AlwaysHealthy());
    ok := opts.DoWrite(file);
    contents := file.bytes;
  }

  lemma AgreeUnless(base: Bytes, seen: Bytes, unseen: Bytes)
    ensures base + seen == base + (seen + unseen) <==> unseen == []
  {
    assert |base + (seen + unseen)| == |base + seen| + |unseen|;
    assert unseen == [] ==> seen + unseen == seen;
  }

  /** A failed write in the middle is not reported: here the second of three
      portions is lost half-way and the write still succeeds. */
  method LostPortion() returns (ok: bool, contents: Bytes)
    ensures ok && contents == [1, 2, 4]
  {
    var reader := new Reader([[1], [2, 3], [4]], false, false);
    var opts := new WriteFile([], reader, false);
    var faults := (k: nat) => if k == 1 then CopyFails(1) else Healthy;
    var file := new File([], faults);
    ghost var pieces := opts.Pieces();
    assert pieces == [[1], [2, 3], [4]] by {
      SeenAll(reader.chunks);
    }
    ok := opts.WriteBufferedContent(file);
    contents := file.bytes;
    LostArrivals(faults);
  }

  lemma LostArrivals(faults: nat -> Fault)
    requires faults(0).Healthy? && faults(1) == CopyFails(1) && faults(2).Healthy?
    ensures Flatten(Arrivals([[1], [2, 3], [4]], faults, 0)) == [1, 2, 4]
  {
    var pieces: seq<Bytes> := [[1], [2, 3], [4]];
    var arrived := Arrivals(pieces, faults, 0);
    assert arrived[0] == [1] && arrived[1] == pieces[1][..1] == [2] && arrived[2] == [4];
    hide Flatten, Arrivals;
    assert arrived == [[1]] + [[2]] + [[4]];
    FlattenOne([1]);
    FlattenLast([[1]], [2]);
    FlattenLast([[1]] + [[2]], [4]);
  }
}
