/** Receiving one file: quarantine it, hash it on the way in, publish it when it checks out. */
module Transfers {
  import opened Prelude
  import Naming

  type Key(==) = nat
  type Device(==) = nat
  type TransferId(==) = nat

  /** SHA-256 as hexadecimal text; where a result needs it to be lower case already, it says so. */
  type Digest = Bytes -> string

  function LowerChar(c: char): char {
    if 'A' <= c <= 'Z' then (c as int + 32) as char else c
  }

  function Lower(s: string): string {
    seq(|s|, i requires 0 <= i < |s| => LowerChar(s[i]))
  }

  /** The quarantine directory, by transfer, and the download directory, by name. */
  datatype Folders = Folders(parts: map<TransferId, Bytes>, downloads: map<string, Bytes>)

  datatype Transfer = Transfer(
    id: TransferId,
    from: Device,
    fromKey: Key,
    name: string,
    size: nat,
    sha: string,
    received: nat,
    accepted: bool,
    hashed: Bytes)

  datatype Error =
    | NotAccepted
    | BadOffset(expected: nat, got: nat)
    | TooLarge
    | Incomplete
    | HashMismatch
    | Io

  function Offered(id: TransferId, from: Device, key: Key, rawName: string, size: nat, sha: string): Transfer {
    Transfer(id, from, key, Naming.Sanitized(rawName), size, Lower(sha), 0, false, [])
  }

  // ---- what each operation does ---------------------------------------------------

  /** Opens an empty part file; `works` says whether the disk plays along. */
  function Accepted(t: Transfer, f: Folders, works: bool): (Transfer, Folders, bool) {
    if works then (t.(accepted := true), f.(parts := f.parts[t.id := []]), true) else (t, f, false)
  }

  function ChunkWritten(t: Transfer, f: Folders, offset: nat, data: Bytes, works: bool)
    : (Transfer, Folders, Result<(), Error>)
  {
    if !t.accepted then (t, f, Err(NotAccepted))
    else if offset != t.received then (t, f, Err(BadOffset(t.received, offset)))
    else if t.received + |data| > t.size then (t, f, Err(TooLarge))
    else if t.id !in f.parts || !works then (t, f, Err(Io))
    else
      (t.(received := t.received + |data|, hashed := t.hashed + data),
       f.(parts := f.parts[t.id := f.parts[t.id] + data]),
       Ok(()))
  }

  function WithoutPart(f: Folders, id: TransferId): Folders {
    f.(parts := f.parts - {id})
  }

  /** Why `finish` refuses, if it does. */
  function Refusal(t: Transfer, f: Folders, sha256: Digest, works: bool): Option<Error> {
    if t.id !in f.parts || !works then Some(Io)
    else if t.received != t.size then Some(Incomplete)
    else if sha256(t.hashed) != t.sha then Some(HashMismatch)
    else None
  }

  function Finished(t: Transfer, f: Folders, sha256: Digest, pid: nat, works: bool): (Folders, Result<string, Error>) {
    match Refusal(t, f, sha256, works)
    case Some(e) => (WithoutPart(f, t.id), Err(e))
    case None =>
      var dest := Naming.UniqueName(f.downloads.Keys, t.name, pid);
      (WithoutPart(f, t.id).(downloads := f.downloads[dest := f.parts[t.id]]), Ok(dest))
  }

  function Aborted(t: Transfer, f: Folders): Folders {
    if t.accepted then WithoutPart(f, t.id) else f
  }

  lemma OnlyPartsArePublished(t: Transfer, f: Folders, sha256: Digest, pid: nat, works: bool)
    ensures Finished(t, f, sha256, pid, works).1.Ok? ==> t.id in f.parts
  {
  }

  // ---- the code ---------------------------------------------------------------------

  class Disk {
    var parts: map<TransferId, Bytes>
    var downloads: map<string, Bytes>

    constructor ()
      ensures parts == map[] && downloads == map[]
    {
      parts, downloads := map[], map[];
    }

    ghost function Model(): Folders
      reads this
    {
      Folders(parts, downloads)
    }
  }

  class IncomingTransfer {
    const id: TransferId
    const from: Device
    const fromKey: Key
    const name: string
    const size: nat
    const expectedSha: string
    var received: nat
    var accepted: bool
    var hasher: Bytes

    constructor (id: TransferId, from: Device, key: Key, rawName: string, size: nat, sha: string)
      ensures Model() == Offered(id, from, key, rawName, size, sha)
    {
      this.id, this.from, this.fromKey, this.size := id, from, key, size;
      this.name, this.expectedSha := Naming.Sanitized(rawName), Lower(sha);
      received, accepted, hasher := 0, false, [];
    }

    ghost function Model(): Transfer
      reads this
    {
      Transfer(id, from, fromKey, name, size, expectedSha, received, accepted, hasher)
    }

    method Accept(disk: Disk, works: bool) returns (ok: bool)
      modifies this`accepted, disk`parts
      ensures (Model(), disk.Model(), ok) == Accepted(old(Model()), old(disk.Model()), works)
    {
      if !works {
        return false;
      }
      disk.parts := disk.parts[id := []];
      accepted := true;
      ok := true;
    }

    method WriteChunk(disk: Disk, offset: nat, data: Bytes, works: bool) returns (r: Result<(), Error>)
      modifies this`received, this`hasher, disk`parts
      ensures (Model(), disk.Model(), r) == ChunkWritten(old(Model()), old(disk.Model()), offset, data, works)
    {
      if !accepted {
        return Err(NotAccepted);
      }
      if offset != received {
        return Err(BadOffset(received, offset));
      }
      var end := received + |data|;
      if end > size {
        return Err(TooLarge);
      }
      if id !in disk.parts || !works {
        return Err(Io);
      }
      disk.parts := disk.parts[id := disk.parts[id] + data];
      hasher := hasher + data;
      received := end;
      r := Ok(());
    }

    method Finish(disk: Disk, sha256: Digest, pid: nat, works: bool) returns (r: Result<string, Error>)
      modifies disk
      ensures (disk.Model(), r) == Finished(Model(), old(disk.Model()), sha256, pid, works)
    {
      r := FinishInner(disk, sha256, pid, works);
      if r.Err? {
        disk.parts := disk.parts - {id};
      }
    }

    method FinishInner(disk: Disk, sha256: Digest, pid: nat, works: bool) returns (r: Result<string, Error>)
      modifies disk
      ensures r.Err? ==> disk.Model() == old(disk.Model()) && Refusal(Model(), disk.Model(), sha256, works) == Some(r.error)
      ensures r.Ok? ==> (disk.Model(), r) == Finished(Model(), old(disk.Model()), sha256, pid, works)
    {
      if id !in disk.parts || !works {
        return Err(Io);
      }
      if received != size {
        return Err(Incomplete);
      }
      var actual := sha256(hasher);
      if actual != expectedSha {
        return Err(HashMismatch);
      }
      var dest := Naming.UniquePath(disk.downloads.Keys, name, pid);
      disk.downloads := disk.downloads[dest := disk.parts[id]];
      disk.parts := disk.parts - {id};
      r := Ok(dest);
    }

    method Abort(disk: Disk)
      modifies disk`parts
      ensures disk.Model() == Aborted(Model(), old(disk.Model()))
    {
      if accepted {
        disk.parts := disk.parts - {id};
      }
    }
  }

  const HASH_BUFFER: nat := 262144

  /** Hashing a file block by block, however the reads are split, hashes the whole file. */
  method HashFile(file: Bytes, sha256: Digest) returns (digest: string, total: nat)
    ensures digest == sha256(file) && total == |file|
  {
    var hasher: Bytes := [];
    total := 0;
    while total < |file|
      invariant total <= |file| && hasher == file[..total]
    {
      var n: nat :| 1 <= n <= HASH_BUFFER && total + n <= |file|;
      hasher := hasher + file[total..total + n];
      total := total + n;
    }
    assert file[..total] == file;
    digest := sha256(hasher);
  }

  // ---- what the operations keep ---------------------------------------------------------

  /** The counter follows the hash, within the offer, and nothing is hashed before acceptance. */
  predicate Counted(t: Transfer) {
    t.received == |t.hashed| <= t.size && (!t.accepted ==> t.hashed == [])
  }

  /** There is a part file exactly when the transfer is accepted. */
  predicate Held(t: Transfer, f: Folders) {
    t.accepted <==> t.id in f.parts
  }

  predicate Matches(t: Transfer, f: Folders) {
    t.id in f.parts ==> f.parts[t.id] == t.hashed
  }

  /** The counter, the running hash and the part file tell the same story. */
  predicate Consistent(t: Transfer, f: Folders) {
    Counted(t) && Held(t, f) && Matches(t, f)
  }

  lemma OfferIsConsistent(id: TransferId, from: Device, key: Key, rawName: string, size: nat, sha: string, f: Folders)
    requires id !in f.parts
    ensures Consistent(Offered(id, from, key, rawName, size, sha), f)
  {
  }

  /** Accepting is safe exactly when nothing has been received yet: it truncates the part file only. */
  lemma AcceptKeepsConsistent(t: Transfer, f: Folders, works: bool)
    requires Consistent(t, f)
    ensures var (u, g, ok) := Accepted(t, f, works);
            && (Consistent(u, g) <==> !works || t.received == 0)
            && Counted(u) && Held(u, g)
  {
  }

  /** Accept, receive one byte, accept again: the part file no longer matches the running hash. */
  lemma AcceptingTwiceLosesData(id: TransferId, from: Device, key: Key, name: string, sha: string)
    ensures var t := Offered(id, from, key, name, 2, sha);
            var (t1, f1, _) := Accepted(t, Folders(map[], map[]), true);
            var (t2, f2, _) := ChunkWritten(t1, f1, 0, [7], true);
            var (t3, f3, _) := Accepted(t2, f2, true);
            t3.hashed == [7] && id in f3.parts && f3.parts[id] == []
  {
  }

  /** A chunk is taken exactly when it is expected, in sequence and within the offer; it is then appended. */
  lemma ChunkIsAppendedOrRefused(t: Transfer, f: Folders, offset: nat, data: Bytes, works: bool)
    requires Consistent(t, f)
    ensures var (u, g, r) := ChunkWritten(t, f, offset, data, works);
            && Consistent(u, g)
            && (r.Ok? <==> t.accepted && offset == t.received && t.received + |data| <= t.size && works)
            && (r.Ok? ==> g.parts == f.parts[t.id := t.hashed + data] && u.hashed == t.hashed + data)
            && (r.Err? ==> u == t && g == f)
            && g.downloads == f.downloads
  {
  }

  /** Publishing yields exactly the received bytes, of the offered length and digest, and no part file. */
  lemma FinishPublishesTheOffer(t: Transfer, f: Folders, sha256: Digest, pid: nat, works: bool)
    requires Consistent(t, f) && t.accepted
    ensures var (g, r) := Finished(t, f, sha256, pid, works);
            && t.id !in g.parts
            && (r.Ok? <==> works && t.received == t.size && sha256(t.hashed) == t.sha)
            && (r.Ok? ==> r.value in g.downloads && g.downloads[r.value] == t.hashed && |t.hashed| == t.size)
            && (r.Err? ==> g.downloads == f.downloads)
            && (forall i :: i in f.parts && i != t.id ==> i in g.parts && g.parts[i] == f.parts[i])
  {
    hide Naming.UniqueName;
  }
}
