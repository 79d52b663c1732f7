# SyncMob, verified

SyncMob exchanges text and files between a desktop node (Rust) and a phone node (Kotlin) on a local
network. This project models its protocol code in Dafny and proves what that code is for:

- **Noise XX** (`Crypto`, `CipherState`, `SymmetricState`, `Handshake`, `HandshakeProofs`, `HandshakeKeys`,
  `Transport`): the handshake and transport of `Noise.kt` and its Rust reference, which follow revision 34
  of the Noise Protocol Framework (sections 4.3, 5.1 to 5.3 and 7.5). X25519, ChaCha20-Poly1305 and BLAKE2s are
  parameters with stated laws; collision freedom and ideal AEAD are hypotheses about the inputs of the runs
  at hand only. `HandshakeKeys` ties every key of a finished run to the three Diffie-Hellman results.
- **The framed channel** (`Framing`, `Channel`, `ChannelProgress`, `PhoneSession`, `PhoneProgress`): many
  sender threads, two locks on the desktop and one on the phone, partial writes, failures and closing as
  interleaved steps; readers over a byte stream cut into any segments; from every open, unbroken state a send
  can be carried through and read.
- **The engine** (`RateLimit`, `Engine`, `EngineInvariant`, `EngineConsent`, `EngineFiles`, `EngineReplies`,
  `EngineViews`, `EngineHistory`, `EngineNode`): the desktop's handlers as functions on one state
  (`Engines.Step`), as a class that updates its tables in place (`EngineNodes.Engine`, each method proved equal
  to its function), and as runs against an arbitrary peer, user and disk. What a run promises is stated about
  its actions, not about the engine's own flags: `EngineReplies` says what is sent, `EngineViews` how each
  connection, key, transfer and send changes, and `EngineHistory` what the tables then say about the run.
- **Pairing of two nodes** (`Pairing`, `PairingNodes`): two ends joined by first-in-first-out channels,
  first abstractly, then with the desktop engine or the phone at either end.
- **Files, names, messages and links** (`Transfer`, `SendFile`, `Naming`, `ChunkCodec`, `MessageCodec`,
  `MessagePassing`, `PairingLink`): the receiver's state machine, the sender's loop against it, publishing under
  a free name, every message as both platforms write and read it, and the pairing link with both parsers.

Specification functions are named for what has happened (`Encrypted`, `Delivered`, `OfferAnswered`);
methods carry the source's names. `dafny verify dfyconfig.toml` checks the whole project.

Where the code falls short of what its comments or users would expect, the model follows the code and the
difference is a result:

- `sanitize_filename` promises names of at most 120 bytes without trailing dots or spaces
  (desktop/src/util.rs:17-24). `SanitizedLength` and `SanitizedEnd` say exactly when it keeps that;
  `ReservedNameIsNotCut` and `CutCanExposeDot` are inputs on which it does not.
- The session stays open after a write that fails part-way (desktop/src/net/session.rs:155-164), and later sends
  report success without being read (`TornFrameLosesALaterMessage`). `AckedBeforeBreakIsRead` and
  `AckedIsReadExactlyBeforeBreak` say for each acknowledged send, on both platforms, exactly when it is read.
- Two users who both accept can still end with one authorised end that is refused: `RefusalNeedsFullStore` says
  exactly when, of the abstract pair and of the two real nodes.
- An offer accepted twice truncates the part file under a running hash (`AcceptingTwiceLosesData`), so that a
  one-byte file is published for a two-byte offer (`AcceptingTwicePublishesHalf`). `AcceptingKeepsInv` says
  exactly when accepting is safe; the front end answers each offer once, which `EngineInvariant.Orderly` states.
- A percent sign two bytes in front of the middle of a character makes the desktop's link parser panic
  (desktop/src/engine/mod.rs:1607-1612): `DesktopPanicsExactly` and `LinkPanicsExactly` say on which text,
  `PercentEuroPanics` is one.
- The desktop's FILE_DONE carries an empty digest (desktop/src/engine/mod.rs:1452-1455), which decoding refuses
  (desktop/src/proto.rs:370-375), so every successful send ends its connection: `DoneKeepsTheCopy` shows that the
  copy survives this, `EmptyFileFromDesktopIsLost` that a file of no bytes does not.
- A text of more than 4096 characters is clamped to 4096 and an ellipsis (desktop/src/util.rs:137-144), which the
  receiver refuses as too long; `TypedTextIsReadExactly` says which texts are read, `LongTextIsLost` and
  `FullTextOfWideCharactersIsLost` are two that are not.

## Model

| member | source | states |
|---|---|---|
| CipherStates.CipherState.constructor | mobile/app/src/main/java/org/syncmob/mobile/crypto/Noise.kt:116-118 | A new cipher has no key, a zero counter and an empty history. |
| CipherStates.CipherState.InitializeKey | mobile/app/src/main/java/org/syncmob/mobile/crypto/Noise.kt:120-123 | Installs the key, restarts the counter at zero and begins a new key epoch; nonces used before stay on record. |
| CipherStates.CipherState.Nonce | mobile/app/src/main/java/org/syncmob/mobile/crypto/Noise.kt:128-136 | The shift-and-mask loop over a 12-byte array yields four zero bytes followed by the counter, little-endian. |
| CipherStates.CipherState.EncryptWithAd | mobile/app/src/main/java/org/syncmob/mobile/crypto/Noise.kt:138-148 | Without a key the text passes through; at counter 2^64-1 the call fails and changes nothing; otherwise the text is sealed under the current nonce and the counter advances by one. |
| CipherStates.CipherState.DecryptWithAd | mobile/app/src/main/java/org/syncmob/mobile/crypto/Noise.kt:150-167 | As for encryption; a failed tag leaves the counter where it is. |
| CipherStates.NonceBytesInjective | mobile/app/src/main/java/org/syncmob/mobile/crypto/Noise.kt:127-136 | Two counters in use have the same nonce bytes exactly when they are equal. |
| CipherStates.InitializeKeepsDiscipline | mobile/app/src/main/java/org/syncmob/mobile/crypto/Noise.kt:120-123 | Installing a key never makes an earlier (epoch, nonce) pair reachable again. |
| CipherStates.CallsKeepDiscipline | mobile/app/src/main/java/org/syncmob/mobile/crypto/Noise.kt:138-167 | Every encryption or decryption keeps the nonce discipline: the counter stays at most 2^64-1, that value is never used, and no (epoch, nonce) pair occurs twice. |
| SymmetricStates.SymmetricState.constructor | mobile/app/src/main/java/org/syncmob/mobile/crypto/Noise.kt:177-186 | The protocol name is padded to 32 bytes or hashed if longer, and starts both the hash and the chaining key. |
| SymmetricStates.SymmetricState.MixHash | mobile/app/src/main/java/org/syncmob/mobile/crypto/Noise.kt:188-190 | The running hash becomes the hash of itself and the data, and the data joins the transcript. |
| SymmetricStates.SymmetricState.MixKey | mobile/app/src/main/java/org/syncmob/mobile/crypto/Noise.kt:192-196 | Derives chaining key and cipher key from the old chaining key and the input, and restarts the counter; `HandshakeKeys.InitiatorKeys`, `ResponderKeys` and `KeysDependOnAllSecrets` say what the keys of a run depend on. |
| SymmetricStates.SymmetricState.EncryptAndHash | mobile/app/src/main/java/org/syncmob/mobile/crypto/Noise.kt:198-202 | Seals with the running hash as associated data, then mixes the ciphertext in. |
| SymmetricStates.SymmetricState.DecryptAndHash | mobile/app/src/main/java/org/syncmob/mobile/crypto/Noise.kt:204-208 | Opens with the running hash as associated data and mixes the ciphertext in only on success. |
| SymmetricStates.SymmetricState.Split | mobile/app/src/main/java/org/syncmob/mobile/crypto/Noise.kt:210-215 | Two fresh ciphers keyed with the two halves of the last key derivation. |
| SymmetricStates.ChainInjective | mobile/app/src/main/java/org/syncmob/mobile/crypto/Noise.kt:188-190 | If the hash has no collision among the inputs of two transcripts, equal handshake hashes mean equal transcripts, entry by entry. |
| Handshakes.NoiseHandshake.constructor | mobile/app/src/main/java/org/syncmob/mobile/crypto/Noise.kt:229-246 | Starts at step 0 with the protocol name and prologue mixed in. |
| Handshakes.NoiseHandshake.WriteMessage | mobile/app/src/main/java/org/syncmob/mobile/crypto/Noise.kt:254-286 | The three write turns of XX in order, refusing every other call; no absent key is ever used. |
| Handshakes.NoiseHandshake.ReadMessage | mobile/app/src/main/java/org/syncmob/mobile/crypto/Noise.kt:288-325 | The three read turns with their minimum lengths and the 32-byte check on the peer's static key; a refused message does not advance the step. |
| Handshakes.NoiseHandshake.Split | mobile/app/src/main/java/org/syncmob/mobile/crypto/Noise.kt:328-332 | Refused before the third message; afterwards the initiator sends with the first key and the responder with the second. |
| HandshakeProofs.AnyCallsAreSafe | mobile/app/src/main/java/org/syncmob/mobile/crypto/Noise.kt:224-325 | For any sequence of calls: only write-read-write (initiator) or read-write-read (responder) prefixes are accepted, every key a turn needs is present, the hash tracks the transcript and the nonce discipline holds. |
| HandshakeProofs.HonestRunCompletes | desktop/tests/noise_reference.rs:213-320 | For any keys and payloads an undisturbed XX run completes with messages of 32, 96 and 64 bytes plus payload, and both ends agree on hash, payloads, static keys and crosswise transport keys. |
| HandshakeProofs.InitiatorTranscript | mobile/app/src/main/java/org/syncmob/mobile/crypto/Noise.kt:254-325 | What a finished initiator has hashed: prologue, its own first message, the delivered second message in its three parts and its third message. |
| HandshakeProofs.ResponderTranscript | mobile/app/src/main/java/org/syncmob/mobile/crypto/Noise.kt:254-325 | What a finished responder has hashed: prologue, the delivered first message, its own second message and the delivered third. |
| HandshakeProofs.EqualHashesMeanUntampered | mobile/app/src/main/java/org/syncmob/mobile/crypto/Noise.kt:224-333 | With arbitrary bytes delivered to two honest parties that both finish, and no hash collision among the inputs of the two runs: the handshake hashes are equal exactly when every message arrived as written, and then each side knows the other's real static key, read the payloads written and holds matching transport keys. |
| HandshakeKeys.InitiatorKeys | mobile/app/src/main/java/org/syncmob/mobile/crypto/Noise.kt:192-333 | For every finished initiator, whatever was delivered: its two transport keys are the HMAC chain from the hashed protocol name over exactly ee, es and se, agreed from its own private keys and the delivered public ones in that order; each field of the messages is sealed or opened under the key of its stage, counter 0, 0, 1, 0, with the hash of everything before it. |
| HandshakeKeys.ResponderKeys | mobile/app/src/main/java/org/syncmob/mobile/crypto/Noise.kt:192-333 | The same for every finished responder, with the roles of static and ephemeral key exchanged and the transport keys crosswise. |
| HandshakeKeys.HmacIsInjective | mobile/app/src/main/java/org/syncmob/mobile/crypto/Noise.kt:54-67 | Without a hash collision among the inputs of two HMAC computations with keys of equal length, equal outputs mean equal keys and data. |
| HandshakeKeys.KeysDependOnAllSecrets | mobile/app/src/main/java/org/syncmob/mobile/crypto/Noise.kt:192-215 | Without collisions among the inputs hashed, two runs have the same sending key exactly when they have the same ee, es and se. |
| HandshakeKeys.EndsShareKeysExactly | mobile/app/src/main/java/org/syncmob/mobile/crypto/Noise.kt:224-333 | Two finished ends, whatever was delivered to them, share the key of the initiator's direction exactly when both computed the same three secrets. |
| Transports.NoiseTransport.Encrypt | mobile/app/src/main/java/org/syncmob/mobile/crypto/Noise.kt:340-343 | Refuses more than 65519 bytes without touching the cipher, otherwise seals under the next nonce with no associated data. |
| Transports.NoiseTransport.Decrypt | mobile/app/src/main/java/org/syncmob/mobile/crypto/Noise.kt:345-347 | Opens under the next receiving nonce, advancing only on success. |
| Transports.AcceptedIsPrefixOfSent | mobile/app/src/main/java/org/syncmob/mobile/crypto/Noise.kt:336-348 | With ideal AEAD, for any sequence of sends and deliveries (replayed, reordered, dropped, forged) the accepted plaintexts are a prefix of those sent. |
| Framing.ByteSource.ReadExact | desktop/src/net/session.rs:114-122 | Collects exactly n bytes however the stream is segmented, or ends empty-handed at the end of the stream. |
| Framing.ChannelReader.Recv | desktop/src/net/session.rs:112-133 | Whatever the segmentation, one call behaves as on the whole byte string: length bounds before allocation, frame counter, decryption, decoding. |
| Framing.ChannelReader.RecvAll | desktop/src/engine/mod.rs:871-880 | The messages a reader thread accepts depend on the bytes only, not on how they are cut; it stops at the first error, an undecodable message included. |
| Framing.ReaderRecovers | desktop/src/net/session.rs:112-133 | From any cut of an honest frame stream the reader recovers exactly the wholly delivered messages, in order, up to the first that does not decode. |
| Framing.AnyStreamYieldsPrefix | desktop/src/net/session.rs:112-133 | With ideal AEAD, torn, replayed or forged bytes still yield only a prefix of what was sealed, and only messages whose frames begin the stream. |
| Framing.ReadExactly | desktop/src/net/session.rs:112-133 | With ideal AEAD a reader gets at least k messages from any bytes exactly when they begin with the first k frames and those messages decode. |
| Channels.AnyInterleavingIsReadInOrder | desktop/src/net/session.rs:143-173 | For every interleaving of any number of sender threads (locks, sealing, partial writes, failures, close): no message is sealed twice, and until bytes follow a broken frame the wire is a prefix of the frames in nonce order, the reader recovers exactly the whole frames up to the first undecodable message, and every send that reported success is among the whole ones. |
| Channels.AckedBeforeBreakIsRead | desktop/src/net/session.rs:143-164 | In every run, whatever follows a failed write: a send that reported success and was sealed before the first broken frame is read, if it and the messages before it decode. |
| Channels.AckedIsReadExactlyBeforeBreak | desktop/src/net/session.rs:112-164 | With ideal AEAD the reader stops in front of the first broken frame unless later bytes happen to complete it; a send that reported success is then read exactly when it was sealed before that frame and it and its predecessors decode. |
| Channels.QuiescentChannelDeliversAll | desktop/src/net/session.rs:143-164 | Once no sender is writing, on an open socket where no write failed, the wire holds exactly the frames of the sealed messages and the reader gets them up to the first undecodable one. |
| Channels.AnyDeliveryIsPrefix | desktop/src/net/session.rs:112-164 | With ideal AEAD, whatever bytes reach the reader, it accepts a prefix of the messages in sealing order. |
| Channels.TornFrameLosesALaterMessage | desktop/src/net/session.rs:155-164 | A concrete run: a write fails part-way on an open socket, and a later send reports success and is never read. |
| ChannelProgress.CallIsTakenExactly | desktop/src/net/session.rs:144-151 | A call of an idle thread is taken exactly when the session is not closed, the message has at most 65519 bytes and at most 2^48 were sent before; otherwise nothing but the counter changes. |
| ChannelProgress.ClosedTakesNothing | desktop/src/net/session.rs:143-173 | Once the session is marked closed no further message is taken, in any continuation. |
| ChannelProgress.LocksCanBeFreed | desktop/src/net/session.rs:152-164 | No deadlock: from every reachable state of an open, unbroken channel the holders of the locks can finish and release them. |
| ChannelProgress.EverySendCanComplete | desktop/src/net/session.rs:112-164 | From every reachable state of an open, unbroken channel, whoever holds the locks, an idle thread's message within the limits can be carried through: it becomes the last sealed message, its frame is on the wire, the send is reported, and the reader returns all messages up to the first undecodable one. |
| PhoneSessions.SecureSession.Send | mobile/app/src/main/java/org/syncmob/mobile/net/Session.kt:117-123 | A send on an open session that is not oversized puts exactly the frame of one sealed message on the wire; otherwise nothing. |
| PhoneSessions.SecureSession.WriteFrame | mobile/app/src/main/java/org/syncmob/mobile/net/Session.kt:71-76 | Writes the four length bytes and the data, or refuses an oversized frame. |
| PhoneSessions.SecureSession.Receive | mobile/app/src/main/java/org/syncmob/mobile/net/Session.kt:126-130 | Whatever the segmentation, one call behaves as on the whole byte string, with the phone's signed length check, its own order of checks, and decoding. |
| PhoneSessions.BothPlatformsReadAlike | mobile/app/src/main/java/org/syncmob/mobile/net/Session.kt:78-86 | From any bytes at all the desktop accepts exactly what the phone accepts, cut off at the desktop's frame limit. |
| PhoneSessions.AnyInterleavingIsReadInOrder | mobile/app/src/main/java/org/syncmob/mobile/net/Session.kt:117-123 | For every interleaving of the phone's senders under its single lock, until bytes follow a broken frame: wire in nonce order, and a reader on either platform recovers exactly the whole frames up to the first undecodable message, acknowledged sends among the whole ones. |
| PhoneSessions.AckedBeforeBreakIsRead | mobile/app/src/main/java/org/syncmob/mobile/net/Session.kt:117-130 | In every run a send that reported success before the first broken frame is read, if it and the messages before it decode. |
| PhoneSessions.AckedIsReadExactlyBeforeBreak | mobile/app/src/main/java/org/syncmob/mobile/net/Session.kt:117-130 | With ideal AEAD an acknowledged send is read exactly when it was sealed before the first broken frame and it and its predecessors decode, unless later bytes happen to complete that frame. |
| PhoneProgress.CallIsTakenExactly | mobile/app/src/main/java/org/syncmob/mobile/net/Session.kt:117-119 | On the phone a call is taken exactly when the session is not closed; lengths are checked later. |
| PhoneProgress.ClosedTakesNothing | mobile/app/src/main/java/org/syncmob/mobile/net/Session.kt:117-135 | Once the phone's session is closed at most the messages already in hand are still sealed. |
| PhoneProgress.EverySendCanComplete | mobile/app/src/main/java/org/syncmob/mobile/net/Session.kt:117-130 | The phone's form of the same: from every reachable open, unbroken state an idle thread's message of at most 65519 bytes can be carried through and is read, while nonces last. |
| RateLimit.ConnGuard.constructor | desktop/src/engine/mod.rs:181-185 | The guard starts with an empty table. |
| RateLimit.ConnGuard.Allow | desktop/src/engine/mod.rs:186-199 | Sweep, capacity test, window reset and count, in that order, as the specification has them. |
| RateLimit.RateLimiter.constructor | desktop/src/net/discovery.rs:266-270 | The limiter starts with an empty table. |
| RateLimit.RateLimiter.Allow | desktop/src/net/discovery.rs:271-287 | As above, sweeping only when the table is over capacity. |
| RateLimit.SpanAdmitsAtMost | desktop/src/engine/mod.rs:186-199 | From any table a run can reach and over any nondecreasing-time trace, a half-open span of n windows admits at most one call fewer than n+1 windows' worth from one address, because a window open at its start has spent a call. |
| RateLimit.HandshakeRate | desktop/src/engine/mod.rs:176-200 | At most 10n+9 handshakes from one address in any n minutes. |
| RateLimit.BeaconRate | desktop/src/net/discovery.rs:262-288 | At most 4n+3 beacons from one address in any n seconds. |
| RateLimit.RateIsAttained | desktop/src/engine/mod.rs:186-199 | For every n > 0 and either limiter some trace is admitted exactly that often, so the bounds are exact. |
| RateLimit.TableStaysSmall | desktop/src/net/discovery.rs:271-282 | Over any calls whatever the tables never exceed 513 and 1025 addresses. |
| RateLimit.SweepingIsUnobservable | desktop/src/engine/mod.rs:186-199 | While the capacity test never fires, each limiter answers every call of any trace exactly like an unswept per-address fixed-window counter. |
| RateLimit.SmallNetworksAreCountedPlainly | desktop/src/engine/mod.rs:186-199 | With calls from at most 512 addresses, or 1024 for beacons, the capacity test never fires, so each call is answered by its own address's fixed window alone. |
| Naming.TruncateKeepingExtension | desktop/src/util.rs:57-74 | Stepping back byte by byte to a character boundary keeps exactly the longest prefix of whole characters that fits, plus a short extension. |
| Naming.SanitizeFilename | desktop/src/util.rs:25-55 | The six cleaning steps with their loops produce the specified name. |
| Naming.SanitizedIsOneComponent | desktop/src/util.rs:17-55 | For any input the name is non-empty, is neither dot entry, and holds no separator, control or forbidden character. |
| Naming.SanitizedIsNotReserved | desktop/src/util.rs:47-51 | For any input the name's stem, in any case, is no reserved device name. |
| Naming.SanitizedLength | desktop/src/util.rs:47-54 | The name is at most 120 bytes exactly when the cleaned name is not both reserved and 120 bytes or longer. |
| Naming.ReservedNameIsNotCut | desktop/src/util.rs:47-51 | A reserved stem with a long extension comes out longer than 120 bytes. |
| Naming.SanitizedEnd | desktop/src/util.rs:38-54 | The name ends in a dot or space exactly when the final cut, without an extension, falls right behind one. |
| Naming.CutCanExposeDot | desktop/src/util.rs:57-74 | A concrete name whose cut exposes a trailing dot. |
| Naming.SafeNameSurvives | desktop/src/util.rs:25-55 | A safe name of at most 120 bytes comes out unchanged, whatever directory, surrounding spaces and trailing dots it is offered with. |
| Naming.FilteringDropsOne | desktop/src/util.rs:29-33 | Filtering drops exactly the control and forbidden characters and keeps the others in order. |
| Naming.ReservedNameIsMarked | desktop/src/util.rs:47-51 | A clean name with a reserved stem gets one underscore in front and is otherwise kept. |
| Naming.LongNameIsCut | desktop/src/util.rs:57-74 | A name over 120 bytes becomes its longest beginning that fits, followed by its last extension if that is at most 16 bytes long. |
| Naming.NothingUsableFallsBack | desktop/src/util.rs:35-45 | A name of dots, spaces and dropped characters only becomes received_file. |
| Naming.DecimalInjective | desktop/src/util.rs:88-93 | Different numbers print differently. |
| Naming.CandidatesDiffer | desktop/src/util.rs:78-93 | The ten thousand candidate names are pairwise distinct. |
| Naming.UniquePath | desktop/src/util.rs:78-94 | The loop returns the first free candidate, or the last resort when all ten thousand are taken. |
| Naming.UniqueNameIsTaken | desktop/src/util.rs:78-94 | The chosen name exists already exactly when all ten thousand candidates and the last resort do. |
| Naming.UniqueNameIsFirstFree | desktop/src/util.rs:78-93 | The chosen name is the first free one of the name itself and stem (1).ext to stem (9999).ext, if any of these is free. |
| Naming.UniqueNameIsFree | desktop/src/util.rs:76-94 | In a directory with fewer than ten thousand entries the chosen name is always free. |
| Naming.UniqueNameIsOneComponent | desktop/src/engine/transfer.rs:164-175 | Whatever name is chosen for a sanitised offer, it is a direct child of the download directory. |
| Naming.PublishingAddsOneEntry | desktop/src/engine/transfer.rs:164-178 | With fewer than ten thousand entries, publishing adds one entry and changes no other. |
| Transfers.IncomingTransfer.constructor | desktop/src/engine/transfer.rs:59-81 | An offer starts unaccepted with nothing received, a sanitised name and a lower-case digest. |
| Transfers.IncomingTransfer.Accept | desktop/src/engine/transfer.rs:85-96 | Creates an empty part file and marks the transfer accepted, or changes nothing when the disk refuses. |
| Transfers.IncomingTransfer.WriteChunk | desktop/src/engine/transfer.rs:98-122 | The checks in the source's order, then append to part file, hash and counter together. |
| Transfers.IncomingTransfer.Finish | desktop/src/engine/transfer.rs:140-146 | Publishes, or removes the part file on any refusal. |
| Transfers.IncomingTransfer.FinishInner | desktop/src/engine/transfer.rs:148-185 | The order of refusals (disk, length, digest), and on success one rename under a unique name. |
| Transfers.IncomingTransfer.Abort | desktop/src/engine/transfer.rs:188-193 | Removes the part file of an accepted transfer. |
| Transfers.HashFile | desktop/src/engine/transfer.rs:197-210 | However the reads are split, the result is the digest and length of the whole file. |
| Transfers.AcceptKeepsConsistent | desktop/src/engine/transfer.rs:85-96 | Accepting keeps counter, hash and part file consistent exactly when the disk refuses or nothing has been received yet; the counter and the presence of the part file stay right in any case. |
| Transfers.AcceptingTwiceLosesData | desktop/src/engine/transfer.rs:85-96 | Accept, one byte, accept again: the part file is empty while the hash still covers the byte. |
| Transfers.ChunkIsAppendedOrRefused | desktop/src/engine/transfer.rs:98-122 | A chunk is taken exactly when accepted, in sequence, within the offer and the disk works; then part file and hash grow by exactly its data, otherwise nothing changes. |
| Transfers.FinishPublishesTheOffer | desktop/src/engine/transfer.rs:140-185 | Publishing succeeds exactly when length and digest match and the disk works; then the file holds exactly the received bytes; either way no part file stays and no other one changes. |
| EngineNodes.TrustStore.Add | desktop/src/security/trust.rs:191-218 | Refreshes and unblocks a known device, stores a new one, unblocked and without automatic acceptance, while there are fewer than 256, and otherwise fails without change. |
| EngineNodes.TrustStore.Remove | desktop/src/security/trust.rs:220-222 | Removes the key and nothing else. |
| EngineNodes.TrustStore.SetBlocked | desktop/src/security/trust.rs:230-234 | Changes the flag of a stored key only. |
| EngineNodes.TrustStore.SetAutoAccept | desktop/src/security/trust.rs:224-228 | Changes the flag of a stored key only. |
| EngineNodes.TrustStore.ByDeviceId | desktop/src/security/trust.rs:186-188 | A stored key of the device, in the store's own order, or none. |
| EngineNodes.Engine.constructor | desktop/src/engine/mod.rs:225-246 | A started engine has empty tables and keeps the stored devices. |
| EngineNodes.Engine.SendRaw | desktop/src/engine/mod.rs:1023-1032 | A message goes out on the device's open connection, if there is one. |
| EngineNodes.Engine.SendTo | desktop/src/engine/mod.rs:758-769 | Data goes out only on an authorised connection. |
| EngineNodes.Engine.Disconnect | desktop/src/engine/mod.rs:516-520 | Marks the connection closed; the table entry stays until its loop ends. |
| EngineNodes.Engine.RespondPairing | desktop/src/engine/mod.rs:1036-1063 | Refusal sends PairReject and closes; acceptance records it, sends PairAccept and tries to finalise. |
| EngineNodes.Engine.TryFinalizePairing | desktop/src/engine/mod.rs:1067-1106 | The key is stored and the connection authorised only when both sides accepted and the store has room. |
| EngineNodes.Engine.OnOffer | desktop/src/engine/mod.rs:1110-1164 | Size limit, table bound and duplicate id are refused; otherwise the offer is taken in, and accepted at once for an auto-accept device. |
| EngineNodes.Engine.RespondOffer | desktop/src/engine/mod.rs:1166-1205 | The user's answer: abort and reject, or open the part file and accept, or reject when the disk refuses. |
| EngineNodes.Engine.OnChunk | desktop/src/engine/mod.rs:1207-1299 | Ignored unless the sender owns the transfer; a refused chunk reports FileError and aborts; the last one completes. |
| EngineNodes.Engine.Complete | desktop/src/engine/mod.rs:1253-1288 | The transfer leaves the table, is reported finished, and is published or refused. |
| EngineNodes.Engine.AbortIncoming | desktop/src/engine/mod.rs:1301-1314 | Removes one transfer with its part file and reports it finished once. |
| EngineNodes.Engine.SignalOutgoing | desktop/src/engine/mod.rs:1477-1481 | Queues the signal for the send with that id, if any. |
| EngineNodes.Engine.CancelTransfer | desktop/src/engine/mod.rs:1483-1517 | An outgoing send is flagged and announced; otherwise an incoming one is announced and aborted. |
| EngineNodes.Engine.FailTransfersFor | desktop/src/engine/mod.rs:1519-1542 | All transfers from the device are aborted and all sends to it cancelled, in whatever order the tables are walked. |
| EngineNodes.Engine.OnMessage | desktop/src/engine/mod.rs:912-1021 | The authorisation check first, then one branch per message kind, a text being recorded before it is acknowledged; `false` ends the connection. |
| EngineNodes.Engine.OpenConnection | desktop/src/engine/mod.rs:773-869 | Key mismatch, block, closed pairing, duplicate device and a full table are refused in that order; otherwise the connection is entered and greeted. |
| EngineNodes.Engine.Receive | desktop/src/engine/mod.rs:871-885 | One turn of the receive loop, with the teardown when handling ends the connection. |
| EngineNodes.Engine.TearDown | desktop/src/engine/mod.rs:882-884 | Connection and receive loop go together, and the device's transfers with them. |
| EngineNodes.Engine.LookupKey | desktop/src/engine/mod.rs:635-647 | A device's key is the one its connection proved, else the one it announced, else a stored one. |
| EngineNodes.Engine.Forget | desktop/src/engine/mod.rs:561-572 | The key leaves the store and the connection is closed; its authorisation flag stays until teardown. |
| EngineNodes.Engine.SetBlocked | desktop/src/engine/mod.rs:583-595 | The flag changes, and blocking closes the connection. |
| EngineNodes.Engine.SetAutoAccept | desktop/src/engine/mod.rs:574-581 | The flag of the resolved key changes. |
| EngineNodes.Engine.OnBeacon | desktop/src/engine/mod.rs:672-700 | Known devices are refreshed, new ones entered while there are fewer than 128. |
| EngineInvariant.StepKeepsInv | desktop/src/engine/mod.rs:773-1542 | Every action keeps: at most 16 connections, one to one with running receive loops by device; at most 256 stored devices; at most 16 transfers, each of a live authorised connection with the same device and key, with its counter equal to what was hashed and a part file exactly once accepted; no stray part file; every offer accounted for; every publication hashed to the offered length and digest. If no offer is answered after its data has arrived, it also keeps part files and published files equal to what was hashed. |
| EngineInvariant.AcceptingKeepsInv | desktop/src/engine/mod.rs:1166-1205 | Accepting an offer keeps the invariant exactly when the disk refuses, the offer is gone, or none of its data has arrived. |
| EngineInvariant.EveryRunKeepsInv | desktop/src/engine/mod.rs:773-1542 | After every run of any actions against an arbitrary peer the tables, owners, accounts and digests are as above; files equal what was hashed if each offer is answered before its data arrives. |
| EngineInvariant.NothingOutlivesItsConnection | desktop/src/engine/mod.rs:882-885 | In every run: once no receive loop is left, there is no incoming transfer and no part file, and every offer was reported finished as often as it was taken in. |
| EngineInvariant.OffersAreConserved | desktop/src/engine/mod.rs:1139-1314 | In every run, for each id: insertions into the incoming table equal finish reports plus one if it is still there. |
| EngineConsent.UninvitedDataOnlyDisconnects | desktop/src/engine/mod.rs:919-928 | In every run, text, offers, chunks and answers from a connection whose key was neither stored unblocked when it opened nor accepted by user and peer on it have exactly the effect of the connection dropping. |
| EngineConsent.StoredKeysWereAgreed | desktop/src/engine/mod.rs:1036-1106 | Every key a run adds to the store was accepted by the local user, and PairAccept arrived, on one connection that proved that key. |
| EngineConsent.EveryRunIsConsented | desktop/src/engine/mod.rs:912-1106 | Along every run each connection's flags are backed by actions of the run. |
| EngineConsent.BlockedStaysOut | desktop/src/engine/mod.rs:794-803 | From a blocked key no run opens a connection, and the block stays, until the user lifts it or forgets the device. |
| EngineConsent.LookupFindsItsDevice | desktop/src/engine/mod.rs:635-647 | In every run the key looked up for a device, whether proved, announced or stored, is a key of that device. |
| EngineConsent.CommandsActOnTheirDevice | desktop/src/engine/mod.rs:561-595 | After every run, forgetting, blocking or auto-accepting a device changes no key and no connection of any other device, and no transfer. |
| EngineFiles.StepIsInboxStep | desktop/src/engine/mod.rs:1110-1314 | Each step leaves a transfer's bytes alone, appends the data its own peer sends for it, takes in a new offer of an authorised peer, or removes it; only completed transfers are published. |
| EngineFiles.PublishedIsWhatItsPeerSent | desktop/src/engine/mod.rs:1110-1299 | In every run what was hashed for a published file is all chunk data that one entitled connection sent for it after offering it, of the offered length, digest and name; if no offer is answered after its data has arrived, the published file is byte for byte that data. |
| EngineReplies.StepSays | desktop/src/engine/mod.rs:758-1517 | In every state a run can reach, one action makes the engine send exactly the listed messages, in order: greeting and pairing request, the pong, the acknowledgement of a text, acceptance or rejection of an offer by limit, table, setting or user, the error for a refused chunk or file, the cancellation. Nothing goes out on a closed connection. |
| EngineReplies.EveryRunSays | desktop/src/engine/mod.rs:758-1517 | Over every run what was sent is exactly what its actions call for, in order. |
| EngineViews.StepConn | desktop/src/engine/mod.rs:773-1106 | One action changes the connection of each device as a machine of its own says: opened only for the expected key, stored and unblocked or with pairing open, at most 16, one per device; ended by its own loop only; authorised by the second of the two agreements if the store has room. |
| EngineViews.StepTrust | desktop/src/engine/mod.rs:561-1106 | One action changes each stored key only by the user's hand, and adds one only by a completed agreement, unblocked and without automatic acceptance. |
| EngineViews.StepTransfer | desktop/src/engine/mod.rs:912-1542 | One action changes each incoming transfer and each send, and extends texts and published files, exactly as their own machines say: by size limit, table bound, owner, offset, length, disk, digest, answer and teardown. |
| EngineHistory.EveryRunRecordsTexts | desktop/src/engine/mod.rs:980-987 | After every run the texts are the starting list followed by exactly the texts delivered on connections authorised at that point, in order, with their devices. |
| EngineHistory.TextIsTakenAndAcknowledged | desktop/src/engine/mod.rs:980-987 | After any run a text on an authorised connection is recorded once and, if the connection is open, followed by exactly one acknowledgement to that device. |
| EngineHistory.EveryRunQueuesSignals | desktop/src/engine/mod.rs:990-1001 | In every run each send has queued exactly the answers that named it since it started, in order: acceptance, rejection, and a cancellation for each FILE_CANCEL or FILE_ERROR; it is flagged exactly when the user cancelled it or its device left. |
| EngineHistory.AutoAcceptIsTheUsers | desktop/src/engine/mod.rs:574-581 | In every run a key accepts offers by itself only if it was stored so at the start, or the user switched it on in the run for a device that resolved to it. |
| EngineHistory.NewKeysAreAskedAbout | desktop/src/security/trust.rs:191-218 | A key that a run adds to the store is not blocked and accepts nothing by itself. |
| EngineHistory.StoredUntilForgotten | desktop/src/engine/mod.rs:561-572 | A stored key leaves the store exactly when the user forgets a device that resolves to it. |
| EngineHistory.AcceptedByUserOrSetting | desktop/src/engine/mod.rs:1110-1205 | In every run each incoming transfer began with an offer, and it is accepted only if the user accepted it since, or the offer came under a key with automatic acceptance at that point. |
| EngineHistory.PublishedWasAccepted | desktop/src/engine/mod.rs:1110-1299 | Nothing is published in any run that neither the user nor that setting accepted. |
| EngineHistory.EveryConnectionWasAdmitted | desktop/src/engine/mod.rs:785-869 | In every run each connection was opened by a handshake with the expected key, if there was one, that was stored and not blocked, or unknown while pairing was open. |
| EngineHistory.NothingExceedsTheLimit | desktop/src/engine/mod.rs:1111-1137 | While a size limit stands no transfer in the table exceeds it. |
| EngineHistory.NoFileExceedsTheLimit | desktop/src/engine/mod.rs:1111-1137 | While a size limit stands no file is published for an offer beyond it. |
| EngineHistory.CommandsPreferTheProvedKey | desktop/src/engine/mod.rs:635-700 | After every run the announced devices are those of the beacons that found room and have not expired since, and a command on a device acts on the key its connection proved, else on the one announced. |
| EngineHistory.ShutConnectionIsSilent | desktop/src/engine/mod.rs:1023-1034 | Once the user has closed a connection it stays closed, and nothing goes out on it. |
| SendFiles.Sender.SendPieces | desktop/src/engine/mod.rs:1380-1433 | For every schedule of cancellations, signals, reads and sends: the loop reaches the end of the file exactly when every pass goes well, and then the chunks are the whole file; otherwise they are the pieces before the first pass that does not, the send is reported failed once, and a failing read is told to the receiver. |
| SendFiles.Sender.SendFileBlocking | desktop/src/engine/mod.rs:1318-1458 | For every schedule: a send that entered the table leaves it and is reported exactly once, as successful exactly when the offer was sent and accepted, nothing cancelled, rejected or failed on the way and the file kept its length; then the messages are the offer, chunks that concatenate to the file, and FILE_DONE if it could be sent. |
| SendFiles.Sender.FinishOutgoing | desktop/src/engine/mod.rs:1460-1475 | Removes the entry and reports it. |
| SendFiles.PiecesAreTheFile | desktop/src/engine/mod.rs:1398-1416 | However short the reads are, the pieces are non-empty, at most 32768 bytes long and concatenate to the file. |
| SendFiles.UndisturbedSendSucceeds | desktop/src/engine/mod.rs:1318-1458 | A send of any file that nobody cancels or rejects and in which no read or send fails is successful. |
| SendFiles.OfferLeadsToReady | desktop/src/engine/mod.rs:1110-1205 | An offer that meets the limits, on an authorised connection, followed by one acceptance (or automatically), leads to exactly the accepted transfer with an empty part file, and nothing else changes. |
| SendFiles.CopyTheFile | desktop/src/engine/mod.rs:1110-1433 | From the offer on, accepted by the user or automatically, for every file of at least one byte and every split into pieces: after each piece but the last the receiver differs only in that the part file is that exact prefix, nothing is refused, and the last piece publishes exactly the file if its digest is still the one offered and refuses it otherwise. |
| SendFiles.SuccessfulSendIsPublished | desktop/src/engine/mod.rs:1110-1458 | Sender and receiver together: a successful send of an unchanged file of at least one byte, offered where the receiver can take it, is published there as exactly that file. |
| SendFiles.ChunksAreDecodable | desktop/src/engine/mod.rs:1411-1416 | Every chunk of a file of at most 2^40 bytes is encodable and decodes to itself. |
| SendFiles.EmptyFileStaysOpen | mobile/app/src/main/java/org/syncmob/mobile/engine/Engine.kt:605-629 | For an empty file the phone sends no chunk, and its FILE_DONE is ignored: the accepted transfer stays open. |
| SendFiles.EmptyFileFromDesktopIsLost | desktop/src/engine/mod.rs:871-885 | The desktop's FILE_DONE does not decode and ends the receive loop: an empty file is reported finished, never published, and its part file is removed. |
| SendFiles.DoneKeepsTheCopy | desktop/src/engine/mod.rs:1005-1018 | After a complete copy neither FILE_DONE nor the end of the connection changes what was published. |
| SendFiles.AcceptingTwicePublishesHalf | desktop/src/engine/mod.rs:1166-1299 | If the user accepts once more between the two chunks of a two-byte file, its digest matches and a one-byte file is published. |
| Pairing.EveryRunKeepsInv | desktop/src/engine/mod.rs:1036-1106 | Over every run of two ends joined by FIFO channels: an end is authorised exactly when it accepted, heard the peer's agreement and has room; agreements in flight are accounted for; data never overtakes the agreement. |
| Pairing.DataIsNeverRefused | desktop/src/engine/mod.rs:926-928 | No run refuses data at an end whose store has room, or whose peer's has none. |
| Pairing.FullStoreRefuses | desktop/src/engine/mod.rs:1084-1091 | With room only at the sender, six steps lead to refused data although both users accepted. |
| Pairing.RefusalNeedsFullStore | desktop/src/engine/mod.rs:1084-1091 | Some run refuses data at an end exactly when its store is full and its peer's is not. |
| Pairing.AuthorisedMeansBothAccepted | desktop/src/engine/mod.rs:1065-1106 | An end is authorised exactly when its user accepted and it processed the peer's PairAccept somewhere in the run. |
| Pairing.BothAcceptedBothAuthorised | desktop/src/engine/mod.rs:1036-1106 | Once both users have accepted and the channels are empty, both ends are authorised. |
| PairingNodes.PhoneNode.constructor | mobile/app/src/main/java/org/syncmob/mobile/engine/Engine.kt:348-375 | A fresh phone connection is authorised exactly when the key is stored and not blocked, with no acceptance recorded. |
| PairingNodes.PhoneNode.Send | mobile/app/src/main/java/org/syncmob/mobile/net/Session.kt:117-123 | Messages go out unless the session is closed. |
| PairingNodes.PhoneNode.RespondPairing | mobile/app/src/main/java/org/syncmob/mobile/engine/Engine.kt:493-512 | Refusal sends PairReject and closes; acceptance records it, sends PairAccept and tries to finalise. |
| PairingNodes.PhoneNode.TryFinalizePairing | mobile/app/src/main/java/org/syncmob/mobile/engine/Engine.kt:515-529 | The key is stored and the connection authorised only when both accepted and the store has room; a new key accepts no files by itself. |
| PairingNodes.PhoneNode.OnMessage | mobile/app/src/main/java/org/syncmob/mobile/engine/Engine.kt:421-485 | The authorisation check, the pairing messages and the stop conditions of the phone. |
| PairingNodes.PhoneStoresCautiously | mobile/app/src/main/java/org/syncmob/mobile/engine/Engine.kt:493-529 | Whatever the phone is told or asked, it stores only its connection's key, once both agreed, unblocked and without automatic acceptance, and leaves the other entries alone. |
| PairingNodes.EitherNodeAnswers | mobile/app/src/main/java/org/syncmob/mobile/engine/Engine.kt:421-485 | On either platform a ping is answered with one pong, and a text of an authorised peer with one acknowledgement. |
| PairingNodes.EitherNodeRefuses | mobile/app/src/main/java/org/syncmob/mobile/engine/Engine.kt:493-512 | On either platform a refusal sends exactly one PairReject, closes the connection and stores nothing; and a message stops the loop exactly when it is a PairReject or data from an unauthorised peer. |
| PairingNodes.AcceptRefines | mobile/app/src/main/java/org/syncmob/mobile/engine/Engine.kt:493-512 | On either platform the user's acceptance is the abstract move, with exactly one PairAccept sent. |
| PairingNodes.SayRefines | desktop/src/engine/mod.rs:758-769 | On either platform what a node sends on its own account is permitted by its pairing view. |
| PairingNodes.TakeRefines | mobile/app/src/main/java/org/syncmob/mobile/engine/Engine.kt:421-485 | On either platform a message ends the connection exactly when it is data and the end is unauthorised; otherwise the view changes as in the abstract pair and the replies are permitted. |
| PairingNodes.UnpairedElicitsPongs | desktop/src/engine/mod.rs:912-1021 | Before pairing a peer can elicit nothing from the desktop but a Pong. |
| PairingNodes.StepMirrors | desktop/src/engine/mod.rs:912-1106 | One step of a concrete pair of nodes is one step of the abstract pair, unless it refuses data, which takes a full store at one end and room at the other. |
| PairingNodes.PairingSucceeds | mobile/app/src/main/java/org/syncmob/mobile/engine/Engine.kt:421-529 | Desktop or phone at either end, over every run without rejection: data is refused only where exactly one store has room, and until then the pairing invariant holds. |
| PairingNodes.PairingFromScratch | mobile/app/src/main/java/org/syncmob/mobile/engine/Engine.kt:421-529 | From two unpaired nodes, over every run: unless data was refused, an end is authorised exactly when its store has room, the run contains its user's acceptance and it processed the peer's PairAccept, which only follows the peer's acceptance; with equal room nothing is refused; and once both users have accepted and the channels are empty, exactly the ends with room are authorised. |
| PairingNodes.RefusalNeedsFullStore | desktop/src/engine/mod.rs:1084-1091 | From any two unpaired nodes some run refuses data exactly when one store is full and the other is not; the run is both acceptances and one text. |
| ChunkCodec.EncodeChunk | desktop/src/proto.rs:251-280 | The desktop's push-by-push encoding yields the frame, or fails beyond 65519 bytes. |
| ChunkCodec.EncodeChunkByShifting | mobile/app/src/main/java/org/syncmob/mobile/proto/Protocol.kt:186-195 | The phone's shift loop yields the same frame as the desktop's big-endian form. |
| ChunkCodec.DecodeByShifting | mobile/app/src/main/java/org/syncmob/mobile/proto/Protocol.kt:206-224 | The phone's accumulate loop over a signed 64-bit word accepts and refuses exactly what the desktop's decoder does, with the same result. |
| ChunkCodec.EncodableChunks | desktop/src/proto.rs:269-279 | A chunk can be sent exactly when it carries at most 65494 bytes. |
| ChunkCodec.DecodeInvertsEncode | desktop/src/proto.rs:285-306 | Decoding an encoded chunk gives the chunk back for offsets up to 2^40 and refuses it beyond. |
| ChunkCodec.EncodeInvertsDecode | desktop/src/proto.rs:285-306 | Re-encoding an accepted chunk frame gives the same bytes, or fails exactly when the frame was oversized. |
| ChunkCodec.EncodingIsInjective | desktop/src/proto.rs:251-280 | Two chunks with the same frame are the same chunk. |
| MessageCodec.Encode | desktop/src/proto.rs:251-280 | The pushes part by part yield the type byte and the body, or fail beyond 65519 bytes, for every message. |
| MessageCodec.DecodeInvertsEncode | desktop/src/proto.rs:251-381 | A written message whose JSON reads back is decoded as itself exactly when it keeps the limits on names, text, size, offset and digest and its control body has at most 16384 bytes; otherwise it is refused with the error of the limit broken. |
| MessageCodec.ReadMessagesKeepTheLimits | desktop/src/proto.rs:285-381 | Whatever bytes arrive, a decoded message keeps all limits and begins with its type byte. |
| MessageCodec.EncodingIsInjective | desktop/src/proto.rs:251-280 | Two messages of any kind written alike are the same message. |
| MessageCodec.OtherTypesAreRefused | desktop/src/proto.rs:377-377 | A frame whose type is none of the fifteen is refused on both platforms. |
| MessageCodec.EmptyDigestIsRefused | desktop/src/proto.rs:370-375 | A FILE_DONE without digest, as the desktop sends it, decodes on neither platform. |
| MessageCodec.PhoneReadsDesktop | mobile/app/src/main/java/org/syncmob/mobile/proto/Protocol.kt:206-287 | The phone decodes what the desktop wrote, with digests in lower case, exactly when it keeps the limits counted in UTF-16 units and the 16 KiB; otherwise it refuses. |
| MessageCodec.DesktopReadsPhone | mobile/app/src/main/java/org/syncmob/mobile/proto/Protocol.kt:153-197 | The desktop decodes what the phone wrote by its own limits, in characters. |
| MessageCodec.TypedTextIsReadExactly | desktop/src/engine/mod.rs:522-537 | A text the user types is decoded at the other desktop exactly when, trimmed, it has at most 4096 characters and its JSON at most 16384 bytes; a longer one is sent with 4097 characters and refused. |
| MessageCodec.LongTextIsLost | desktop/src/engine/mod.rs:522-537 | 4097 plain letters are sent, and refused by the receiver. |
| MessageCodec.FullTextOfWideCharactersIsLost | desktop/src/proto.rs:308-310 | 4096 characters of four bytes keep the text limit and are refused for the size of their JSON. |
| MessageCodec.TextsThePlatformsDisagreeOn | mobile/app/src/main/java/org/syncmob/mobile/proto/Protocol.kt:262-266 | Of the texts within 16 KiB the desktop reads every one the phone reads, and more exactly when a text has at most 4096 characters and more UTF-16 units. |
| MessagePassing.EveryMessageArrives | desktop/src/net/session.rs:112-164 | Encoding, sealing, framing, reading and decoding together: from every reachable open, unbroken state in which only decodable messages were taken, any message within the limits can be carried through, and the other end reads exactly that message last. |
| PairingLink.UrlEscape | desktop/src/engine/mod.rs:1591-1601 | The byte loop escapes everything but unreserved characters. |
| PairingLink.UrlUnescape | desktop/src/engine/mod.rs:1603-1619 | The index loop yields the unescaped bytes on all text with no percent sign two bytes in front of the middle of a character. |
| PairingLink.DesktopPanicsExactly | desktop/src/engine/mod.rs:1603-1619 | On any bytes the loop slices inside a character, and panics, exactly when a percent sign stands two bytes in front of the middle of a character. |
| PairingLink.LinkPanicsExactly | desktop/src/engine/mod.rs:1559-1575 | A link makes the desktop's parser panic exactly when the value of one of its name fields does. |
| PairingLink.PhoneUnescape | mobile/app/src/main/java/org/syncmob/mobile/proto/PairingUri.kt:54-70 | The phone's loop on any UTF-16 text: percent signs found in its US-ASCII bytes, digits in the text at the same index, signs included. |
| PairingLink.UnescapeInvertsEscape | desktop/src/engine/mod.rs:1591-1619 | The desktop recovers any bytes from their escaped form. |
| PairingLink.PhoneInvertsEscape | mobile/app/src/main/java/org/syncmob/mobile/proto/PairingUri.kt:54-70 | The phone recovers any bytes from their escaped form. |
| PairingLink.AsciiNeverPanics | desktop/src/engine/mod.rs:1603-1619 | No ASCII input makes the desktop slice inside a character. |
| PairingLink.PercentEuroPanics | desktop/src/engine/mod.rs:1607-1612 | A percent sign in front of a three-byte character does. |
| PairingLink.ParsePairingUri | desktop/src/engine/mod.rs:1559-1589 | The field loop with its overrides, then the checks in order with their errors and the default port. |
| PairingLink.PhoneParse | mobile/app/src/main/java/org/syncmob/mobile/proto/PairingUri.kt:31-52 | The phone's field loop and checks, on any UTF-16 text. |
| PairingLink.PrintedFields | desktop/src/engine/mod.rs:445-456 | A printed link splits into exactly its five fields, whatever the name. |
| PairingLink.EveryLinkIsRead | desktop/src/engine/mod.rs:445-456 | Both parsers recover key, host and port of every printed link, and of its name exactly what each platform's length limit and character replacement leave. |
| PairingLink.LinkRoundTrip | desktop/src/engine/mod.rs:445-456 | Both parsers recover key, host, port and name from every printed link whose name has no control characters and at most 64 UTF-16 units. |
| PairingLink.ReadLinksAreSound | desktop/src/engine/mod.rs:1559-1589 | Whatever the text, a link is read only with the prefix, a 32-byte key and a port from 1 to 65535; on the phone the host is not blank. |
| PairingLink.BareLinkHasDefaults | desktop/src/engine/mod.rs:1580-1588 | A link of key and host alone yields port 45821 and an empty name on both platforms. |

## Left out

- Cryptographic primitives, secrecy and forward secrecy: library code, kept as parameters with laws (`Crypto.Primitives.Lawful`).
- Handshake runs after a refused message: the party keeps partly mixed state, so its run ends there.
- `respond_pairing` interleaved with the reader thread between sending PairAccept and finalising: every engine handler, and the teardown, is one atomic step.
- The copy fallback of `finish_inner` on another volume (desktop/src/engine/transfer.rs:178-183): publishing is one rename.
- Part files left by failing removals or by a process that stopped: removal of a part file is taken to succeed, and the quarantine directory starts empty.
- Ownership of cancel, error and done messages: the code checks it for chunks only, so any authorised peer may end a transfer by its id and nothing is claimed against that.
- `authorised` after `forget`: the flag survives until teardown, so being authorised is not claimed to imply being in the store.
- EngineNodes.Engine.OnMessage: display names, timestamps, message texts and front-end events other than finish reports are not part of the state; a text is recorded by its sender and id.
- EngineNodes.Engine.OpenConnection: the random transfer ids, prompts and pairing codes shown to the user are not modelled; timeouts appear as disconnects.
- EngineNodes.Engine.OnChunk: a failing disk write leaves the part file as it was until the abort removes it.
- SendFiles.Sender.SendFileBlocking: progress events and error texts are left out; what the receiver, the user, the disk and the connection do is a schedule, the waiting time included.
- SendFiles.CopyTheFile: one transfer without other actions in between; arbitrary interleavings are covered by `EngineFiles.PublishedIsWhatItsPeerSent`.
- PairingNodes.PhoneNode.OnMessage: the phone's file handlers answer with an arbitrary list of data messages, and a store whose file cannot be written is not modelled.
- PairingNodes.PairingFromScratch: no end rejects, closes or loses its connection, and no other pairing fills a store meanwhile.
- RateLimit.ConnGuard.Allow: the 32-bit call counter is read as unbounded.
- JSON text: the two JSON libraries are parameters of `MessageCodec`, required to read back the message at hand; that serde also takes an array for an object is not modelled. In the channel which plaintexts decode is a parameter (`MessagePassing` supplies it), and in the engine an undecodable message appears as the end of the connection. Base64, UTF-8, address printing and the digits of other scripts are codecs with laws, which `CodecLawsAreSatisfiable` shows can be met.
- The checks of `admit` and `dial` other than the rate limiter, keepalive pings, and what the front end is shown.
- Discovery beacons on the wire, LAN address filtering, key store and trust store encryption, settings, sockets, clocks and the user interface: thin wrappers or easy members.
- The phone's connection and transfer tables: its check and insertion are not under one lock, so bounds are proved of the desktop only.
- ChannelProgress.EverySendCanComplete: a desktop sender holds the cipher lock during its write, so a peer that never reads can hold up all senders; the claim is that some continuation carries a send through, not that every schedule does.
