/** Sending a file, and what the receiving engine makes of it. */
module SendFiles {
  import opened Prelude
  import opened Transfers
  import opened Engines
  import opened EngineInvariant
  import ChunkCodec
  import Naming

  const CHUNK_SIZE: nat := 32768

  function Concat(pieces: seq<Bytes>): Bytes
    decreases |pieces|
  {
    if pieces == [] then [] else Concat(pieces[..|pieces| - 1]) + pieces[|pieces| - 1]
  }

  /** One chunk message per piece, at consecutive offsets. */
  function Chunks(id: TransferId, pieces: seq<Bytes>): (r: seq<Message>)
    ensures |r| == |pieces|
    ensures forall k :: 0 <= k < |r| ==> r[k].FileChunk? && r[k].id == id && r[k].data == pieces[k]
    decreases |pieces|
  {
    if pieces == [] then [] else
      var n := |pieces| - 1;
      Chunks(id, pieces[..n]) + [FileChunk(id, |Concat(pieces[..n])|, pieces[n])]
  }

  /** Reads are short but never empty. */
  predicate Readable(pieces: seq<Bytes>) {
    forall k :: 0 <= k < |pieces| ==> 1 <= |pieces[k]| <= CHUNK_SIZE
  }

  lemma OneMorePiece(id: TransferId, pieces: seq<Bytes>, piece: Bytes)
    ensures Concat(pieces + [piece]) == Concat(pieces) + piece
    ensures Chunks(id, pieces + [piece]) == Chunks(id, pieces) + [FileChunk(id, |Concat(pieces)|, piece)]
  {
    assert (pieces + [piece])[..|pieces|] == pieces;
  }

  lemma NoPieces(id: TransferId)
    ensures Concat([]) == [] && Chunks(id, []) == []
  {
  }

  // ---- the sender --------------------------------------------------------------------

  /**
   * One pass through the read loop: whether the user has cancelled, what the receiver has said, how much the
   * read would return (`part`, cut to what is left), whether it fails, and whether the chunk is sent.
   */
  datatype Pass = Pass(cancelled: bool, signal: Option<Signal>, part: nat, fails: bool, delivered: bool)

  /** All that a send depends on but does not decide; `None` for an answer is a receiver that stays silent. */
  datatype Schedule = Schedule(
    atHash: Option<Bytes>,
    offerSent: bool,
    answer: Option<Signal>,
    atSend: Option<Bytes>,
    passes: nat -> Pass,
    errorSent: bool,
    doneSent: bool)

  /** Only a rejection or a cancellation stops a running send. */
  predicate Stopped(p: Pass) {
    p.cancelled || p.signal == Some(Reject) || p.signal == Some(Cancel)
  }

  /** A read returns at least one byte, at most a chunk, and none only at the end of the file. */
  function ReadSize(part: nat, left: nat): (n: nat)
    ensures n <= CHUNK_SIZE && n <= left && (left > 0 ==> n >= 1)
  {
    if left == 0 then 0
    else if part == 0 then 1
    else if part <= CHUNK_SIZE && part <= left then part
    else if left <= CHUNK_SIZE then left
    else CHUNK_SIZE
  }

  /** The pieces in which the rest of the file is read from pass `k` on. */
  function PiecesFrom(file: Bytes, offset: nat, passes: nat -> Pass, k: nat): (r: seq<Bytes>)
    requires offset <= |file|
    ensures Readable(r)
    decreases |file| - offset
  {
    if offset == |file| then [] else
      var n := ReadSize(passes(k).part, |file| - offset);
      [file[offset..offset + n]] + PiecesFrom(file, offset + n, passes, k + 1)
  }

  /** The file as it is read, piece by piece. */
  function Pieces(file: Bytes, passes: nat -> Pass): seq<Bytes> {
    PiecesFrom(file, 0, passes, 0)
  }

  /** Pass `k` goes well: nobody stops the send, the read works, and what it read is sent. */
  predicate Smooth(file: Bytes, passes: nat -> Pass, k: nat) {
    && !Stopped(passes(k)) && !passes(k).fails
    && (k < |Pieces(file, passes)| ==> passes(k).delivered)
  }

  /** Every pass goes well, the one that meets the end of the file included. */
  predicate AllSmooth(file: Bytes, passes: nat -> Pass) {
    forall k :: 0 <= k <= |Pieces(file, passes)| ==> Smooth(file, passes, k)
  }

  lemma {:induction false} PiecesAreTheRest(file: Bytes, offset: nat, passes: nat -> Pass, k: nat)
    requires offset <= |file|
    ensures Concat(PiecesFrom(file, offset, passes, k)) == file[offset..]
    decreases |file| - offset
  {
    if offset < |file| {
      var n := ReadSize(passes(k).part, |file| - offset);
      var rest := PiecesFrom(file, offset + n, passes, k + 1);
      PiecesAreTheRest(file, offset + n, passes, k + 1);
      ConcatFront(file[offset..offset + n], rest);
      hide Concat, PiecesFrom;
      assert file[offset..] == file[offset..offset + n] + file[offset + n..];
    }
  }

  lemma {:induction false} ConcatFront(piece: Bytes, pieces: seq<Bytes>)
    ensures Concat([piece] + pieces) == piece + Concat(pieces)
    decreases |pieces|
  {
    if pieces == [] {
      assert [piece] + pieces == [piece] && [piece][..0] == [];
    } else {
      var n := |pieces| - 1;
      ConcatFront(piece, pieces[..n]);
      assert ([piece] + pieces)[..n + 1] == [piece] + pieces[..n];
    }
  }

  /** However a file is read, its pieces are the file. */
  lemma PiecesAreTheFile(file: Bytes, passes: nat -> Pass)
    ensures Concat(Pieces(file, passes)) == file && Readable(Pieces(file, passes))
  {
    PiecesAreTheRest(file, 0, passes, 0);
    assert file[0..] == file;
  }

  /** The loop has read `pieces`, up to `offset`, and every pass so far went well. */
  ghost predicate SoFar(file: Bytes, passes: nat -> Pass, pieces: seq<Bytes>, offset: nat) {
    && offset <= |file|
    && Pieces(file, passes) == pieces + PiecesFrom(file, offset, passes, |pieces|)
    && forall k :: 0 <= k < |pieces| ==> Smooth(file, passes, k)
  }

  lemma ReadingStarts(file: Bytes, passes: nat -> Pass)
    ensures SoFar(file, passes, [], 0)
  {
    hide PiecesFrom;
    assert [] + PiecesFrom(file, 0, passes, 0) == PiecesFrom(file, 0, passes, 0);
  }

  lemma PassFails(file: Bytes, passes: nat -> Pass, pieces: seq<Bytes>, offset: nat)
    requires SoFar(file, passes, pieces, offset)
    requires var p := passes(|pieces|); Stopped(p) || p.fails || (offset < |file| && !p.delivered)
    ensures pieces <= Pieces(file, passes) && !Smooth(file, passes, |pieces|) && !AllSmooth(file, passes)
    ensures forall k :: 0 <= k < |pieces| ==> Smooth(file, passes, k)
  {
    if offset < |file| {
      assert PiecesFrom(file, offset, passes, |pieces|) != [];
    }
    hide Pieces, PiecesFrom;
    assert |pieces| <= |Pieces(file, passes)|;
  }

  lemma ReadingEnds(file: Bytes, passes: nat -> Pass, pieces: seq<Bytes>)
    requires SoFar(file, passes, pieces, |file|) && !Stopped(passes(|pieces|)) && !passes(|pieces|).fails
    ensures pieces == Pieces(file, passes) && AllSmooth(file, passes)
  {
    assert PiecesFrom(file, |file|, passes, |pieces|) == [];
    hide Pieces, PiecesFrom;
    assert pieces + [] == pieces;
  }

  lemma SmoothThroughout(file: Bytes, passes: nat -> Pass)
    requires AllSmooth(file, passes)
    ensures forall k :: 0 <= k <= |Pieces(file, passes)| ==> Smooth(file, passes, k)
  {
  }

  lemma PassSucceeds(file: Bytes, passes: nat -> Pass, pieces: seq<Bytes>, offset: nat)
    requires SoFar(file, passes, pieces, offset) && offset < |file|
    requires var p := passes(|pieces|); !Stopped(p) && !p.fails && p.delivered
    ensures var n := ReadSize(passes(|pieces|).part, |file| - offset);
            SoFar(file, passes, pieces + [file[offset..offset + n]], offset + n)
  {
    var k, n := |pieces|, ReadSize(passes(|pieces|).part, |file| - offset);
    var data, rest := file[offset..offset + n], PiecesFrom(file, offset + n, passes, k + 1);
    assert PiecesFrom(file, offset, passes, k) == [data] + rest;
    hide Pieces, PiecesFrom, ReadSize;
    assert pieces + ([data] + rest) == pieces + [data] + rest;
    assert Smooth(file, passes, k);
  }

  class Sender {
    var outgoing: map<TransferId, Outgoing>
    var sent: seq<Message>
    /** `finish_outgoing` events: which send, and whether it succeeded. */
    var finishes: seq<(TransferId, bool)>

    constructor ()
      ensures outgoing == map[] && sent == [] && finishes == []
    {
      outgoing, sent, finishes := map[], [], [];
    }

    method FinishOutgoing(id: TransferId, ok: bool)
      modifies this`outgoing, this`finishes
      ensures outgoing == old(outgoing) - {id} && finishes == old(finishes) + [(id, ok)]
    {
      outgoing := outgoing - {id};
      finishes := finishes + [(id, ok)];
    }

    /** The connection may refuse any message: `send_to` then reports an error. */
    method SendTo(m: Message, works: bool)
      modifies this`sent
      ensures sent == if works then old(sent) + [m] else old(sent)
    {
      if works {
        sent := sent + [m];
      }
    }

    /**
     * The read loop. It reaches the end of the file exactly when every pass goes well; otherwise it stops at
     * the first that does not, reports the send failed, and says so to the receiver if the read was at fault.
     */
    method SendPieces(id: TransferId, file: Bytes, passes: nat -> Pass, errorSent: bool)
      returns (pieces: seq<Bytes>, tail: seq<Message>, done: bool)
      modifies this
      ensures var all := Pieces(file, passes);
              && pieces <= all
              && (done <==> AllSmooth(file, passes))
              && (done ==> pieces == all)
              && (forall k :: 0 <= k < |pieces| ==> Smooth(file, passes, k))
              && (!done ==> !Smooth(file, passes, |pieces|))
              && tail == (if !done && !Stopped(passes(|pieces|)) && passes(|pieces|).fails && errorSent then [FileError(id)] else [])
      ensures sent == old(sent) + Chunks(id, pieces) + tail
      ensures outgoing == (if done then old(outgoing) else old(outgoing) - {id})
      ensures finishes == (if done then old(finishes) else old(finishes) + [(id, false)])
    {
      hide Chunks, Pieces, PiecesFrom, Smooth, AllSmooth, SoFar;
      NoPieces(id);
      ReadingStarts(file, passes);
      pieces, tail, done := [], [], false;
      var offset := 0;
      while true
        invariant offset <= |file| && SoFar(file, passes, pieces, offset) && |Concat(pieces)| == offset
        invariant sent == old(sent) + Chunks(id, pieces)
        invariant outgoing == old(outgoing) && finishes == old(finishes) && tail == [] && !done
        decreases |file| - offset
      {
        var pass := passes(|pieces|);
        if pass.cancelled {
          PassFails(file, passes, pieces, offset);
          FinishOutgoing(id, false);
          return;
        }
        if pass.signal == Some(Cancel) || pass.signal == Some(Reject) {
          PassFails(file, passes, pieces, offset);
          FinishOutgoing(id, false);
          return;
        }
        if pass.fails {
          PassFails(file, passes, pieces, offset);
          SendTo(FileError(id), errorSent);
          tail := if errorSent then [FileError(id)] else [];
          FinishOutgoing(id, false);
          return;
        }
        var n := ReadSize(pass.part, |file| - offset);
        if n == 0 {
          ReadingEnds(file, passes, pieces);
          SmoothThroughout(file, passes);
          done := true;
          return;
        }
        var data := file[offset..offset + n];
        SendTo(FileChunk(id, offset, data), pass.delivered);
        if !pass.delivered {
          PassFails(file, passes, pieces, offset);
          FinishOutgoing(id, false);
          return;
        }
        PassSucceeds(file, passes, pieces, offset);
        OneMorePiece(id, pieces, data);
        pieces := pieces + [data];
        offset := offset + n;
      }
    }

    /** From the receiver's acceptance to the end of the send. */
    method SendAccepted(id: TransferId, size: nat, s: Schedule) returns (pieces: seq<Bytes>, tail: seq<Message>, ok: bool)
      modifies this
      ensures outgoing == old(outgoing) - {id} && finishes == old(finishes) + [(id, ok)]
      ensures sent == old(sent) + Chunks(id, pieces) + tail
      ensures ok <==> s.atSend.Some? && AllSmooth(s.atSend.value, s.passes) && |s.atSend.value| == size
      ensures s.atSend.None? ==> pieces == [] && tail == []
      ensures s.atSend.Some? ==> pieces <= Pieces(s.atSend.value, s.passes)
      ensures ok ==> pieces == Pieces(s.atSend.value, s.passes) && tail == if s.doneSent then [FileDone(id)] else []
      ensures !ok ==> tail == [] || tail == [FileError(id)]
    {
      hide Concat, Chunks, Pieces, AllSmooth, Smooth;
      NoPieces(id);
      pieces, tail, ok := [], [], false;
      if s.atSend.None? {
        FinishOutgoing(id, false);
        return;
      }
      var done;
      pieces, tail, done := SendPieces(id, s.atSend.value, s.passes, s.errorSent);
      if !done {
        return;
      }
      PiecesAreTheFile(s.atSend.value, s.passes);
      if |Concat(pieces)| != size {
        SendTo(FileError(id), s.errorSent);
        tail := if s.errorSent then [FileError(id)] else [];
        FinishOutgoing(id, false);
        return;
      }
      SendTo(FileDone(id), s.doneSent);
      tail := if s.doneSent then [FileDone(id)] else [];
      ok := true;
      FinishOutgoing(id, true);
    }

    /**
     * Whatever the schedule, a send that entered the table leaves it and is reported exactly once. It is
     * reported successful exactly when the file could be hashed, the offer was sent and accepted, every pass
     * of the read loop went well and the file still had the offered length; then the receiver was sent the
     * offer, the whole file in pieces, and FILE_DONE if that could be sent.
     */
    method SendFileBlocking(id: TransferId, to: Device, name: string, sha256: Digest, s: Schedule)
      returns (pieces: seq<Bytes>, tail: seq<Message>, ok: bool)
      modifies this
      ensures outgoing == (if s.atHash.Some? then old(outgoing) - {id} else old(outgoing))
      ensures finishes == (if s.atHash.Some? then old(finishes) + [(id, ok)] else old(finishes))
      ensures ok <==> Succeeds(s)
      ensures sent == old(sent) + if s.atHash.Some? && s.offerSent then
        [FileOffer(id, name, |s.atHash.value|, sha256(s.atHash.value))] + Chunks(id, pieces) + tail else []
      ensures pieces != [] ==> s.answer == Some(Accept) && s.atSend.Some? && pieces <= Pieces(s.atSend.value, s.passes)
      ensures ok ==> pieces == Pieces(s.atSend.value, s.passes) && Concat(pieces) == s.atSend.value
      ensures ok ==> tail == if s.doneSent then [FileDone(id)] else []
      ensures !ok ==> tail == [] || tail == [FileError(id)]
    {
      hide Concat, Chunks, Pieces, AllSmooth, Smooth;
      NoPieces(id);
      pieces, tail, ok := [], [], false;
      if s.atHash.None? {
        return;
      }
      var digest, size := HashFile(s.atHash.value, sha256);
      outgoing := outgoing[id := Outgoing(to, [], false)];
      ghost var before, offer := sent, [FileOffer(id, name, size, digest)];
      SendTo(FileOffer(id, name, size, digest), s.offerSent);
      if !s.offerSent {
        FinishOutgoing(id, false);
        return;
      }
      if s.answer != Some(Accept) {
        // Rejected, cancelled or not answered in time.
        FinishOutgoing(id, false);
        assert offer + [] + [] == offer;
        return;
      }
      pieces, tail, ok := SendAccepted(id, size, s);
      assert sent == before + (offer + Chunks(id, pieces) + tail);
      if ok {
        PiecesAreTheFile(s.atSend.value, s.passes);
      }
    }
  }

  /** Nothing goes wrong from the first read of the file to the last. */
  predicate Succeeds(s: Schedule) {
    && s.atHash.Some? && s.offerSent && s.answer == Some(Accept)
    && s.atSend.Some? && AllSmooth(s.atSend.value, s.passes)
    && |s.atSend.value| == |s.atHash.value|
  }

  /** A send no one interferes with succeeds, whatever the file and however it is read. */
  lemma UndisturbedSendSucceeds(s: Schedule, file: Bytes)
    requires s.atHash == s.atSend == Some(file) && s.offerSent && s.answer == Some(Accept)
    requires forall k: nat :: !s.passes(k).cancelled && s.passes(k).signal == None && !s.passes(k).fails && s.passes(k).delivered
    ensures Succeeds(s)
  {
    hide Pieces;
  }

  // ---- the receiver ----------------------------------------------------------------------

  const Lucky := DiskLuck(true, true, true)

  /** The messages arrive one after the other on connection `c`, and the disk works. */
  function Deliveries(c: ConnId, messages: seq<Message>): (r: seq<Action>)
    ensures |r| == |messages|
    decreases |messages|
  {
    if messages == [] then [] else
      var n := |messages| - 1;
      Deliveries(c, messages[..n]) + [Deliver(c, messages[n], Lucky)]
  }

  /** Transfer `id`, offered on connection `c` with `size` and `sha`, has just been accepted. */
  ghost predicate Ready(env: Env, s: State, c: ConnId, id: TransferId, size: nat, sha: string) {
    && c in s.live
    && var d := env.deviceOf(s.live[c]);
       && d in s.conns && s.conns[d].authorised
       && id in s.inbox.incoming
       && var t := s.inbox.incoming[id];
          && t == Transfer(id, d, s.live[c], t.name, size, sha, 0, true, [])
          && Consistent(t, s.inbox.folders)
  }

  function Progressed(t: Transfer, bytes: Bytes): Transfer {
    t.(received := |bytes|, hashed := bytes)
  }

  /** The state in which `bytes` of transfer `id` have arrived, and nothing else has happened. */
  function Arrived(s: State, id: TransferId, bytes: Bytes): State
    requires id in s.inbox.incoming
  {
    s.(inbox := s.inbox.(
      incoming := s.inbox.incoming[id := Progressed(s.inbox.incoming[id], bytes)],
      folders := s.inbox.folders.(parts := s.inbox.folders.parts[id := bytes])))
  }

  /** The state in which transfer `id` has been published as `file`, and nothing else has happened. */
  function Completion(env: Env, s: State, id: TransferId, file: Bytes): State
    requires id in s.inbox.incoming
  {
    var t := Progressed(s.inbox.incoming[id], file);
    var dest := Naming.UniqueName(s.inbox.folders.downloads.Keys, t.name, env.pid);
    s.(inbox := s.inbox.(
      incoming := s.inbox.incoming - {id},
      folders := Folders(s.inbox.folders.parts - {id}, s.inbox.folders.downloads[dest := file]),
      finished := s.inbox.finished + multiset{id},
      published := s.inbox.published + [Published(t, dest, file)]))
  }

  /** The state in which transfer `id` has been refused for its digest, and nothing else has happened. */
  function Mismatched(s: State, d: Device, id: TransferId): State {
    SendRaw(s.(inbox := s.inbox.(
      incoming := s.inbox.incoming - {id},
      folders := s.inbox.folders.(parts := s.inbox.folders.parts - {id}),
      finished := s.inbox.finished + multiset{id})), d, FileError(id))
  }

  lemma NothingArrived(env: Env, s: State, c: ConnId, id: TransferId, size: nat, sha: string)
    requires Ready(env, s, c, id, size, sha)
    ensures Arrived(s, id, []) == s
  {
    assert s.inbox.incoming[id := s.inbox.incoming[id]] == s.inbox.incoming;
    assert s.inbox.folders.parts[id := []] == s.inbox.folders.parts;
  }

  lemma ChunkArrives(env: Env, s: State, c: ConnId, id: TransferId, size: nat, sha: string, got: Bytes, piece: Bytes)
    requires Ready(env, s, c, id, size, sha)
    requires |got + piece| < size
    ensures Delivered(env, Arrived(s, id, got), c, FileChunk(id, |got|, piece), Lucky) == Arrived(s, id, got + piece)
  {
    hide Completed, IncomingAborted, SendRaw;
    var t, u := Arrived(s, id, got), Arrived(s, id, got + piece);
    assert t.inbox.incoming[id := Progressed(s.inbox.incoming[id], got + piece)] == u.inbox.incoming;
    assert t.inbox.folders.parts[id := got + piece] == u.inbox.folders.parts;
  }

  lemma LastChunkDecides(env: Env, s: State, c: ConnId, id: TransferId, size: nat, sha: string, got: Bytes, piece: Bytes)
    requires Ready(env, s, c, id, size, sha)
    requires |got + piece| == size
    ensures Delivered(env, Arrived(s, id, got), c, FileChunk(id, |got|, piece), Lucky)
         == if env.sha256(got + piece) == sha then Completion(env, s, id, got + piece)
            else Mismatched(s, env.deviceOf(s.live[c]), id)
  {
    hide IncomingAborted, SendRaw, Naming.UniqueName;
    var t, u := Arrived(s, id, got), Completion(env, s, id, got + piece);
    var v := Progressed(s.inbox.incoming[id], got + piece);
    assert t.inbox.incoming[id := v] - {id} == u.inbox.incoming;
    assert t.inbox.folders.parts[id := got + piece] - {id} == u.inbox.folders.parts;
  }

  lemma {:induction false} CopyProgress(env: Env, s: State, c: ConnId, id: TransferId, size: nat, sha: string, pieces: seq<Bytes>)
    requires Ready(env, s, c, id, size, sha) && |Concat(pieces)| < size
    ensures After(env, s, Deliveries(c, Chunks(id, pieces))) == Arrived(s, id, Concat(pieces))
    decreases |pieces|
  {
    if pieces == [] {
      NothingArrived(env, s, c, id, size, sha);
    } else {
      hide Ready, Arrived, Delivered;
      var n := |pieces| - 1;
      CopyProgress(env, s, c, id, size, sha, pieces[..n]);
      DeliverLast(env, s, c, id, pieces);
      ChunkArrives(env, s, c, id, size, sha, Concat(pieces[..n]), pieces[n]);
    }
  }

  lemma DeliverLast(env: Env, s: State, c: ConnId, id: TransferId, pieces: seq<Bytes>)
    requires pieces != []
    ensures var n := |pieces| - 1;
            After(env, s, Deliveries(c, Chunks(id, pieces)))
              == Delivered(env, After(env, s, Deliveries(c, Chunks(id, pieces[..n]))), c,
                           FileChunk(id, |Concat(pieces[..n])|, pieces[n]), Lucky)
  {
    hide Delivered;
    var n := |pieces| - 1;
    var before, m := Chunks(id, pieces[..n]), FileChunk(id, |Concat(pieces[..n])|, pieces[n]);
    assert Chunks(id, pieces) == before + [m];
    assert (before + [m])[..n] == before;
    AfterOneMore(env, s, Deliveries(c, before), Deliver(c, m, Lucky));
  }

  lemma CopySoFar(env: Env, s: State, c: ConnId, id: TransferId, size: nat, sha: string, pieces: seq<Bytes>, k: nat)
    requires Ready(env, s, c, id, size, sha) && Readable(pieces) && |Concat(pieces)| == size && k < |pieces|
    ensures Concat(pieces[..k]) <= Concat(pieces) && |Concat(pieces[..k])| < size
    ensures After(env, s, Deliveries(c, Chunks(id, pieces[..k]))) == Arrived(s, id, Concat(pieces[..k]))
  {
    hide After, Ready, Arrived, Concat, Chunks, Deliveries;
    ProperPrefix(pieces, k);
    CopyProgress(env, s, c, id, size, sha, pieces[..k]);
  }

  lemma CopyEnds(env: Env, s: State, c: ConnId, id: TransferId, size: nat, sha: string, file: Bytes, pieces: seq<Bytes>)
    requires Ready(env, s, c, id, size, sha) && Readable(pieces) && Concat(pieces) == file && |file| == size >= 1
    ensures After(env, s, Deliveries(c, Chunks(id, pieces)))
         == if env.sha256(file) == sha then Completion(env, s, id, file) else Mismatched(s, env.deviceOf(s.live[c]), id)
  {
    LastPiece(pieces, file);
    hide After, Ready, Arrived, Completion, Mismatched, Concat, Chunks, Deliveries, Delivered;
    var n := |pieces| - 1;
    CopySoFar(env, s, c, id, size, sha, pieces, n);
    DeliverLast(env, s, c, id, pieces);
    LastChunkDecides(env, s, c, id, size, sha, Concat(pieces[..n]), pieces[n]);
  }

  lemma LastPiece(pieces: seq<Bytes>, file: Bytes)
    requires Concat(pieces) == file && |file| >= 1
    ensures pieces != [] && Concat(pieces[..|pieces| - 1]) + pieces[|pieces| - 1] == file
  {
  }

  lemma {:induction false} ProperPrefix(pieces: seq<Bytes>, k: nat)
    requires k < |pieces| && Readable(pieces)
    ensures Concat(pieces[..k]) <= Concat(pieces) && |Concat(pieces[..k])| < |Concat(pieces)|
    decreases |pieces|
  {
    var n := |pieces| - 1;
    if k < n {
      ProperPrefix(pieces[..n], k);
      assert pieces[..n][..k] == pieces[..k];
    }
  }

  /** Every chunk of a file the protocol can offer survives its encoding. */
  lemma ChunksAreDecodable(wireId: Bytes, id: TransferId, file: Bytes, pieces: seq<Bytes>, k: nat)
    requires |wireId| == 16 && |file| <= ChunkCodec.MAX_FILE_SIZE
    requires Readable(pieces) && Concat(pieces) <= file && k < |pieces|
    ensures var c := ChunkCodec.Chunk(wireId, |Concat(pieces[..k])|, pieces[k]);
            && Chunks(id, pieces)[k] == FileChunk(id, c.offset, c.data)
            && ChunkCodec.Encoded(c).Ok?
            && ChunkCodec.Decode(ChunkCodec.Encoded(c).value) == Ok(ChunkCodec.FileChunk(c))
  {
    ProperPrefix(pieces, k);
    ChunkAt(id, pieces, k);
    var c := ChunkCodec.Chunk(wireId, |Concat(pieces[..k])|, pieces[k]);
    hide Concat, Chunks, ChunkCodec.Decode, ChunkCodec.Encoded;
    ChunkCodec.EncodableChunks(c);
    ChunkCodec.DecodeInvertsEncode(c);
  }

  lemma {:induction false} ChunkAt(id: TransferId, pieces: seq<Bytes>, k: nat)
    requires k < |pieces|
    ensures Chunks(id, pieces)[k] == FileChunk(id, |Concat(pieces[..k])|, pieces[k])
    decreases |pieces|
  {
    var n := |pieces| - 1;
    if k < n {
      ChunkAt(id, pieces[..n], k);
      assert pieces[..n][..k] == pieces[..k];
    }
  }

  // ---- from the offer on -----------------------------------------------------------------

  /** An offer of `size` bytes under `id` on connection `c` will be taken in. */
  ghost predicate Offerable(env: Env, s: State, c: ConnId, id: TransferId, size: nat) {
    && id !in s.inbox.incoming && |s.inbox.incoming| < MAX_INCOMING_TRANSFERS
    && !(0 < s.sizeLimit < size)
    && c in s.live
    && var d := env.deviceOf(s.live[c]);
       d in s.conns && s.conns[d].authorised
  }

  /** The sender's offer arrives; unless it is accepted automatically, the user accepts it. */
  function Beginning(s: State, c: ConnId, id: TransferId, name: string, size: nat, sha: string): seq<Action>
    requires c in s.live
  {
    var offer := Deliver(c, FileOffer(id, name, size, sha), Lucky);
    var key := s.live[c];
    if key in s.trust && s.trust[key].autoAccept then [offer] else [offer, AnswerOffer(id, true, true)]
  }

  /** The state in which the offer has been taken in, accepted and answered, and nothing else has happened. */
  function Begun(env: Env, s: State, c: ConnId, id: TransferId, name: string, size: nat, sha: string): State
    requires c in s.live
  {
    var d := env.deviceOf(s.live[c]);
    var t := Offered(id, d, s.live[c], name, size, sha).(accepted := true);
    SendRaw(s.(inbox := s.inbox.(
      incoming := s.inbox.incoming[id := t],
      folders := s.inbox.folders.(parts := s.inbox.folders.parts[id := []]),
      offered := s.inbox.offered + multiset{id})), d, FileAccept(id))
  }

  lemma AcceptedAtOnce(env: Env, s: State, c: ConnId, id: TransferId, name: string, size: nat, sha: string)
    requires Offerable(env, s, c, id, size)
    ensures var d := env.deviceOf(s.live[c]);
            var taken := s.(inbox := OfferTaken(s.inbox, Offered(id, d, s.live[c], name, size, sha)));
            OfferAnswered(taken, id, true, true) == Begun(env, s, c, id, name, size, sha)
  {
    var d := env.deviceOf(s.live[c]);
    var t := Offered(id, d, s.live[c], name, size, sha);
    hide SendRaw, Offered, IncomingAborted;
    assert t.id == id && t.from == d by { OfferNames(id, d, s.live[c], name, size, sha); }
    assert s.inbox.incoming[id := t][id := t.(accepted := true)] == s.inbox.incoming[id := t.(accepted := true)];
  }

  lemma OfferNames(id: TransferId, from: Device, key: Key, name: string, size: nat, sha: string)
    ensures var t := Offered(id, from, key, name, size, sha);
            t.id == id && t.from == from && t == Transfer(id, from, key, Naming.Sanitized(name), size, Lower(sha), 0, false, [])
  {
  }

  lemma OfferIsTaken(env: Env, s: State, c: ConnId, id: TransferId, name: string, size: nat, sha: string)
    requires Offerable(env, s, c, id, size)
    ensures var key := s.live[c];
            var taken := s.(inbox := OfferTaken(s.inbox, Offered(id, env.deviceOf(key), key, name, size, sha)));
            Step(env, s, Deliver(c, FileOffer(id, name, size, sha), Lucky))
              == if key in s.trust && s.trust[key].autoAccept then OfferAnswered(taken, id, true, true) else taken
  {
    hide OfferAnswered, Offered, OfferTaken, TornDown;
  }

  /** Offer and acceptance, by the user or automatic, lead to the state the copy starts from. */
  lemma OfferLeadsToReady(env: Env, s: State, c: ConnId, id: TransferId, name: string, size: nat, sha: string)
    requires Offerable(env, s, c, id, size) && Lower(sha) == sha
    ensures After(env, s, Beginning(s, c, id, name, size, sha)) == Begun(env, s, c, id, name, size, sha)
    ensures Ready(env, Begun(env, s, c, id, name, size, sha), c, id, size, sha)
  {
    BegunIsReady(env, s, c, id, name, size, sha);
    OfferIsTaken(env, s, c, id, name, size, sha);
    AcceptedAtOnce(env, s, c, id, name, size, sha);
    hide Begun, Ready, OfferAnswered, Offered, OfferTaken, Delivered;
    var offer := Deliver(c, FileOffer(id, name, size, sha), Lucky);
    AfterOneMore(env, s, [], offer);
    AfterOneMore(env, s, [offer], AnswerOffer(id, true, true));
    assert [] + [offer] == [offer];
  }

  lemma BegunIsReady(env: Env, s: State, c: ConnId, id: TransferId, name: string, size: nat, sha: string)
    requires Offerable(env, s, c, id, size) && Lower(sha) == sha
    ensures Ready(env, Begun(env, s, c, id, name, size, sha), c, id, size, sha)
  {
    OfferNames(id, env.deviceOf(s.live[c]), s.live[c], name, size, sha);
    hide Offered, Lower;
  }

  lemma {:induction false} RunsCompose(env: Env, s: State, first: seq<Action>, second: seq<Action>)
    ensures After(env, s, first + second) == After(env, After(env, s, first), second)
    decreases |second|
  {
    hide Step;
    if second == [] {
      assert first + second == first;
    } else {
      var n := |second| - 1;
      RunsCompose(env, s, first, second[..n]);
      assert first + second == first + second[..n] + [second[n]];
      AfterOneMore(env, s, first + second[..n], second[n]);
    }
  }

  /**
   * Sending refines "copy the file", from the offer on: for every file of at least one byte, every way of
   * reading it in pieces and an offer made for `hashed` of the same length, the part file is an exact prefix
   * after each piece but the last, nothing is refused or reported, and the last piece publishes exactly the
   * file if its digest is the one offered and is refused otherwise.
   */
  lemma CopyTheFile(env: Env, s: State, c: ConnId, id: TransferId, name: string, hashed: Bytes, file: Bytes, pieces: seq<Bytes>)
    requires Offerable(env, s, c, id, |file|) && |file| == |hashed| >= 1
    requires Lower(env.sha256(hashed)) == env.sha256(hashed)
    requires Readable(pieces) && Concat(pieces) == file
    ensures var begin := Beginning(s, c, id, name, |file|, env.sha256(hashed));
            var begun := Begun(env, s, c, id, name, |file|, env.sha256(hashed));
            && (forall k :: 0 <= k < |pieces| ==>
                  && Concat(pieces[..k]) <= file
                  && After(env, s, begin + Deliveries(c, Chunks(id, pieces[..k]))) == Arrived(begun, id, Concat(pieces[..k])))
            && After(env, s, begin + Deliveries(c, Chunks(id, pieces)))
               == if env.sha256(file) == env.sha256(hashed) then Completion(env, begun, id, file)
                  else Mismatched(begun, env.deviceOf(s.live[c]), id)
  {
    var size, sha := |file|, env.sha256(hashed);
    OfferLeadsToReady(env, s, c, id, name, size, sha);
    var begin, begun := Beginning(s, c, id, name, size, sha), Begun(env, s, c, id, name, size, sha);
    assert id in begun.inbox.incoming && begun.live == s.live;
    hide After, Ready, Arrived, Completion, Mismatched, Concat, Chunks, Deliveries, Begun, Beginning, Offerable;
    forall k | 0 <= k < |pieces|
      ensures Concat(pieces[..k]) <= file
      ensures After(env, s, begin + Deliveries(c, Chunks(id, pieces[..k]))) == Arrived(begun, id, Concat(pieces[..k]))
    {
      CopySoFar(env, begun, c, id, size, sha, pieces, k);
      RunsCompose(env, s, begin, Deliveries(c, Chunks(id, pieces[..k])));
    }
    CopyEnds(env, begun, c, id, size, sha, file, pieces);
    RunsCompose(env, s, begin, Deliveries(c, Chunks(id, pieces)));
  }

  /** Sender and receiver together: a send that succeeds, of a file that did not change, is published as that file. */
  lemma SuccessfulSendIsPublished(env: Env, s: State, c: ConnId, id: TransferId, name: string, run: Schedule)
    requires Succeeds(run) && run.atHash == run.atSend && |run.atSend.value| >= 1
    requires Offerable(env, s, c, id, |run.atSend.value|)
    requires Lower(env.sha256(run.atSend.value)) == env.sha256(run.atSend.value)
    ensures var file, sha := run.atSend.value, env.sha256(run.atSend.value);
            After(env, s, Beginning(s, c, id, name, |file|, sha) + Deliveries(c, Chunks(id, Pieces(file, run.passes))))
              == Completion(env, Begun(env, s, c, id, name, |file|, sha), id, file)
  {
    var file := run.atSend.value;
    PiecesAreTheFile(file, run.passes);
    hide After, Pieces, Concat, Chunks, Deliveries, Beginning, Begun, Completion, Offerable, AllSmooth, Readable;
    CopyTheFile(env, s, c, id, name, file, file, Pieces(file, run.passes));
  }

  // ---- FILE_DONE ----------------------------------------------------------------------------

  /**
   * The phone's FILE_DONE is read and changes nothing, so a file of no bytes is never published: there is no
   * chunk to complete it with, and the transfer stays open.
   */
  lemma EmptyFileStaysOpen(env: Env, s: State, c: ConnId, id: TransferId, name: string, pieces: seq<Bytes>)
    requires Offerable(env, s, c, id, 0) && Lower(env.sha256([])) == env.sha256([])
    requires Readable(pieces) && Concat(pieces) == []
    ensures var begin := Beginning(s, c, id, name, 0, env.sha256([]));
            After(env, s, begin + Deliveries(c, Chunks(id, pieces) + [FileDone(id)])) == Begun(env, s, c, id, name, 0, env.sha256([]))
  {
    var begun := Begun(env, s, c, id, name, 0, env.sha256([]));
    OfferLeadsToReady(env, s, c, id, name, 0, env.sha256([]));
    NoBytesNoChunks(id, pieces);
    var done := Deliver(c, FileDone(id), Lucky);
    assert Deliveries(c, [FileDone(id)]) == [done];
    RunsCompose(env, s, Beginning(s, c, id, name, 0, env.sha256([])), [done]);
    DoneIsIgnored(env, begun, c, id, 0, env.sha256([]));
    hide Begun, Ready;
    AfterOneMore(env, begun, [], done);
    assert [] + [done] == [done];
  }

  lemma NoBytesNoChunks(id: TransferId, pieces: seq<Bytes>)
    requires Readable(pieces) && Concat(pieces) == []
    ensures pieces == [] && Chunks(id, pieces) + [FileDone(id)] == [FileDone(id)]
  {
    if pieces != [] {
      ProperPrefix(pieces, 0);
    }
  }

  lemma DoneIsIgnored(env: Env, s: State, c: ConnId, id: TransferId, size: nat, sha: string)
    requires Ready(env, s, c, id, size, sha) && size == 0
    ensures Step(env, s, Deliver(c, FileDone(id), Lucky)) == s
  {
  }

  /**
   * The desktop's FILE_DONE carries an empty digest and does not decode, which ends the receive loop: a file
   * of no bytes is reported finished without being published, and its part file is gone.
   */
  lemma EmptyFileFromDesktopIsLost(env: Env, s: State, c: ConnId, id: TransferId, name: string)
    requires Offerable(env, s, c, id, 0) && Lower(env.sha256([])) == env.sha256([])
    ensures var t := After(env, s, Beginning(s, c, id, name, 0, env.sha256([])) + [Drop(c)]);
            && id !in t.inbox.incoming && id !in t.inbox.folders.parts && id in t.inbox.finished
            && t.inbox.folders.downloads == s.inbox.folders.downloads && t.inbox.published == s.inbox.published
  {
    var begun := Begun(env, s, c, id, name, 0, env.sha256([]));
    OfferLeadsToReady(env, s, c, id, name, 0, env.sha256([]));
    AfterOneMore(env, s, Beginning(s, c, id, name, 0, env.sha256([])), Drop(c));
    DropAborts(env, begun, c, id, 0, env.sha256([]));
  }

  lemma DropAborts(env: Env, s: State, c: ConnId, id: TransferId, size: nat, sha: string)
    requires Ready(env, s, c, id, size, sha)
    ensures var t := Step(env, s, Drop(c));
            && id !in t.inbox.incoming && id !in t.inbox.folders.parts && id in t.inbox.finished
            && t.inbox.folders.downloads == s.inbox.folders.downloads && t.inbox.published == s.inbox.published
  {
    assert id in From(s.inbox, env.deviceOf(s.live[c]));
  }

  /** After a copy it is harmless on either platform: what has been published stays. */
  lemma DoneKeepsTheCopy(env: Env, s: State, c: ConnId, id: TransferId, size: nat, sha: string, file: Bytes)
    requires Ready(env, s, c, id, size, sha)
    ensures var t := Completion(env, s, id, file);
            && Step(env, t, Deliver(c, FileDone(id), Lucky)) == t
            && Step(env, t, Drop(c)).inbox.folders.downloads == t.inbox.folders.downloads
            && Step(env, t, Drop(c)).inbox.published == t.inbox.published
  {
    hide Naming.UniqueName;
  }

  // ---- an offer accepted twice -----------------------------------------------------------------

  /** The user accepts once more between the two chunks of a two-byte file. */
  function TwiceAccepted(c: ConnId, id: TransferId, x: byte, y: byte): seq<Action> {
    [Deliver(c, FileChunk(id, 0, [x]), Lucky), AnswerOffer(id, true, true), Deliver(c, FileChunk(id, 1, [y]), Lucky)]
  }

  lemma ThreeSteps(env: Env, s: State, a: Action, b: Action, c: Action)
    ensures After(env, s, [a, b, c]) == Step(env, Step(env, Step(env, s, a), b), c)
  {
    hide Step;
    AfterOneMore(env, s, [a, b], c);
    AfterOneMore(env, s, [a], b);
    AfterOneMore(env, s, [], a);
    assert [] + [a] == [a] && [a] + [b] == [a, b] && [a, b] + [c] == [a, b, c];
  }

  lemma AcceptedAgain(env: Env, s: State, c: ConnId, id: TransferId, sha: string, x: byte)
    requires Ready(env, s, c, id, 2, sha)
    ensures var t := Step(env, Arrived(s, id, [x]), AnswerOffer(id, true, true));
            && id in t.inbox.incoming && t.inbox.incoming[id] == Progressed(s.inbox.incoming[id], [x])
            && t.inbox.folders == s.inbox.folders.(parts := s.inbox.folders.parts[id := []])
            && t.inbox.published == s.inbox.published && t.live == s.live && t.conns == s.conns
  {
    assert s.inbox.folders.parts[id := [x]][id := []] == s.inbox.folders.parts[id := []];
  }

  lemma RestCompletes(env: Env, t: State, c: ConnId, id: TransferId, u: Transfer, x: byte, y: byte)
    requires c in t.live && id in t.inbox.incoming && t.inbox.incoming[id] == u && id in t.inbox.folders.parts
    requires t.inbox.folders.parts[id] == []
    requires var d := env.deviceOf(t.live[c]);
             && d in t.conns && t.conns[d].authorised
             && u == Transfer(id, d, t.live[c], u.name, 2, env.sha256([x, y]), 1, true, [x])
    ensures var dest := Naming.UniqueName(t.inbox.folders.downloads.Keys, u.name, env.pid);
            var after := Step(env, t, Deliver(c, FileChunk(id, 1, [y]), Lucky)).inbox;
            && after.published == t.inbox.published + [Published(Progressed(u, [x, y]), dest, [y])]
            && after.folders.downloads == t.inbox.folders.downloads[dest := [y]]
  {
    hide Naming.UniqueName;
    assert [x] + [y] == [x, y] && [] + [y] == [y];
  }

  /** A file of one byte is published for a two-byte offer whose digest matched. */
  lemma AcceptingTwicePublishesHalf(env: Env, s: State, c: ConnId, id: TransferId, name: string, x: byte, y: byte)
    requires Offerable(env, s, c, id, 2) && Lower(env.sha256([x, y])) == env.sha256([x, y])
    ensures var sha := env.sha256([x, y]);
            var after := After(env, s, Beginning(s, c, id, name, 2, sha) + TwiceAccepted(c, id, x, y)).inbox;
            && |after.published| == |s.inbox.published| + 1
            && var p := after.published[|s.inbox.published|];
               && p.transfer.id == id && p.transfer.size == 2 && p.transfer.hashed == [x, y] && p.transfer.sha == sha
               && p.content == [y] && p.name in after.folders.downloads && after.folders.downloads[p.name] == [y]
  {
    var sha := env.sha256([x, y]);
    var begun := Begun(env, s, c, id, name, 2, sha);
    OfferLeadsToReady(env, s, c, id, name, 2, sha);
    RunsCompose(env, s, Beginning(s, c, id, name, 2, sha), TwiceAccepted(c, id, x, y));
    var run := TwiceAccepted(c, id, x, y);
    ThreeSteps(env, begun, run[0], run[1], run[2]);
    NothingArrived(env, begun, c, id, 2, sha);
    ChunkArrives(env, begun, c, id, 2, sha, [], [x]);
    assert [] + [x] == [x];
    AcceptedAgain(env, begun, c, id, sha, x);
    assert begun.inbox.published == s.inbox.published;
    hide After, Delivered, OfferAnswered, Begun, Naming.UniqueName, Arrived;
    var t := Step(env, Arrived(begun, id, [x]), run[1]);
    RestCompletes(env, t, c, id, Progressed(begun.inbox.incoming[id], [x]), x, y);
  }
}
